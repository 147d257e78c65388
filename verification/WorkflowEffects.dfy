/** When each editorial transaction is accepted, and everything that it then changes,
    in any state that a run reaches.  A refusal leaves all rows as they were. */
module WorkflowEffects {
  import opened Common
  import opened Workflow
  import opened WorkflowInvariant
  import opened WorkflowSteps
  import T = WorkflowTheorems
  import P = PublicationProtocol
  import R = ReviewChain

  /** Neither a recovery anywhere nor a publication of this situation stands in the way. */
  predicate Unpublished(s: State, situation: nat) {
    !RecoveryPending(s.publications) && !PublicationUnderway(s.publications, situation)
  }

  lemma GuardMeans(s: State, situation: nat)
    ensures PublicationGuard(s.publications, situation).None? <==> Unpublished(s, situation)
  {
    hide RecoveryPending, PublicationUnderway;
  }

  /** The guards, read off the columns of the rows. */
  lemma GuardColumns(s: State)
    ensures RecoveryPending(s.publications) <==>
      exists p :: 0 <= p < |s.publications| && s.publications[p].state == P.RecoveryRequired
    ensures forall situation :: PublicationUnderway(s.publications, situation) <==>
      exists p :: 0 <= p < |s.publications| && s.publications[p].situation == situation
                  && s.publications[p].state in {P.Requested, P.Assembling, P.Promoting, P.Verifying}
    ensures forall situation :: ReviewUnderway(s.reviews, situation) <==>
      exists r :: 0 <= r < |s.reviews| && s.reviews[r].situation == situation && s.reviews[r].job.state in {R.Queued, R.Running}
    ensures forall c: nat, fence :: FocusedReview(s.reviews, c, fence) <==>
      exists r :: 0 <= r < |s.reviews| && s.reviews[r].checkout == c && s.reviews[r].checkoutFence == fence
                  && s.reviews[r].job.laneOwner && s.reviews[r].job.state in {R.Queued, R.Running, R.Failed}
    ensures forall c: nat, actor, fence | c < |s.checkouts| ::
      HoldsCheckout(s.checkouts, c, actor, fence) <==>
        s.checkouts[c].holder == actor && s.checkouts[c].fence == fence && !s.checkouts[c].released
    ensures forall r | 0 <= r < |s.reviews| && s.reviews[r].checkout < |s.checkouts| ::
      var checkout := s.checkouts[s.reviews[r].checkout];
      CheckoutActive(s.checkouts, s.reviews[r]) <==> checkout.fence == s.reviews[r].checkoutFence && !checkout.released
    ensures forall job: R.Job, now | job.state in {R.Queued, R.Running} ::
      MustWait(job, now) <==>
        if job.state == R.Queued then job.retryNotBefore.Some? && now < job.retryNotBefore.value
        else job.lease.Some? && now <= job.lease.value
    ensures forall receipt :: Requested(s.publications, receipt) <==>
      exists p :: 0 <= p < |s.publications| && s.publications[p].receipt == receipt
  {
  }

  // ----- refusals, in the order in which they are given -----

  function When(refused: bool, e: Error): Option<Error> {
    if refused then Some(e) else None
  }

  function Else(first: Option<Error>, later: Option<Error>): Option<Error> {
    if first.Some? then first else later
  }

  function PublicationRefusal(s: State, situation: nat): Option<Error> {
    Else(When(RecoveryPending(s.publications), PublicationRecoveryRequired),
         When(PublicationUnderway(s.publications, situation), PublicationActive))
  }

  /** The situation of a checkout, if there is such a row. */
  function SituationOf(s: State, c: nat): nat {
    if c < |s.checkouts| then s.checkouts[c].situation else 0
  }

  /** The editor names another revision than the head of the checkout's draft. */
  predicate NotHead(s: State, c: nat, revision: nat, hash: Hash) {
    c < |s.checkouts| && s.checkouts[c].draft < |s.drafts| && |s.drafts[s.checkouts[c].draft].revisions| > 0 &&
    var head := Head(s.drafts[s.checkouts[c].draft]); (revision, hash) != (head.id, head.hash)
  }

  /** The editor's checkout is active, and its draft has a head. */
  lemma Workspace(s: State, c: nat, actor: nat, fence: nat)
    requires Inv(s) && HoldsCheckout(s.checkouts, c, actor, fence)
    ensures s.checkouts[c].draft < |s.drafts| && |s.drafts[s.checkouts[c].draft].revisions| > 0
    ensures s.checkouts[c].situation < |s.fences|
    ensures DraftOk(s.drafts[s.checkouts[c].draft], s.nextRevision)
    ensures Latest(s.drafts[s.checkouts[c].draft].revisions) == Some(Head(s.drafts[s.checkouts[c].draft]))
  {
    assert CheckoutOk(s.checkouts[c], s.fences, s.drafts);
    assert DraftOk(s.drafts[s.checkouts[c].draft], s.nextRevision);
    LatestIsHead(s.drafts[s.checkouts[c].draft], s.nextRevision);
  }

  // ----- revisions -----

  /** The draft with one revision more. */
  function Extended(d: Draft, id: nat, hash: Hash): Draft
    requires |d.revisions| > 0
  {
    d.(revisions := d.revisions + [Revision(id, |d.revisions| + 1, Some(Head(d).id), hash)],
       currentNumber := |d.revisions| + 1, currentHash := Some(hash))
  }

  /** The same content keeps the head; other content follows it, and the open proposals
      that target the old head are superseded, but for `keep`. */
  predicate Revises(s: State, s': State, d: nat, hash: Hash, keep: Option<nat>)
    requires d < |s.drafts| && |s.drafts[d].revisions| > 0
  {
    if hash == Head(s.drafts[d]).hash then s' == s
    else
      && |s'.proposals| == |s.proposals|
      && s' == s.(drafts := s.drafts[d := Extended(s.drafts[d], s.nextRevision, hash)], nextRevision := s.nextRevision + 1,
                  proposals := s'.proposals)
      && forall q :: 0 <= q < |s.proposals| ==>
           s'.proposals[q] == if s.proposals[q].currentRevision == Head(s.drafts[d]).id && keep != Some(q)
                              then s.proposals[q].(superseded := true) else s.proposals[q]
  }

  lemma RevisionExact(s: State, d: nat, hash: Hash, expected: Option<(nat, Hash)>, keep: Option<nat>)
    requires d < |s.drafts| && DraftOk(s.drafts[d], s.nextRevision)
    ensures var made := CreateRevision(s, d, hash, expected, keep); var head := Head(s.drafts[d]);
      && (made.revision.Some? <==> expected.None? || expected.value == (head.id, head.hash))
      && (made.revision.None? ==> made.state == s)
      && (made.revision.Some? ==>
            && Revises(s, made.state, d, hash, keep)
            && |made.state.drafts[d].revisions| > 0 && made.revision.value == Head(made.state.drafts[d]))
  {
    LatestIsHead(s.drafts[d], s.nextRevision);
    hide Latest;
  }

  /** saveDraft. */
  lemma SaveExact(actions: seq<Action>, actor: nat, c: nat, fence: nat, expected: Option<(nat, Hash)>, hash: Hash,
                                     content: Option<Error>)
    requires CanRun(EMPTY, actions)
    ensures var s := Run(EMPTY, actions); var result := SaveDraft(s, actor, c, fence, expected, hash, content);
      && (HoldsCheckout(s.checkouts, c, actor, fence) ==>
            s.checkouts[c].draft < |s.drafts| && |s.drafts[s.checkouts[c].draft].revisions| > 0)
      && (result.error.None? <==>
            && HoldsCheckout(s.checkouts, c, actor, fence) && Unpublished(s, s.checkouts[c].situation) && content.None?
            && var head := Head(s.drafts[s.checkouts[c].draft]); expected.None? || expected.value == (head.id, head.hash))
      && result.error ==
           Else(When(!HoldsCheckout(s.checkouts, c, actor, fence), StaleCheckout),
             Else(PublicationRefusal(s, SituationOf(s, c)),
               Else(content,
                 When(expected.Some? && NotHead(s, c, expected.value.0, expected.value.1), StaleRevision))))
      && (result.error.None? ==> Revises(s, result.state, s.checkouts[c].draft, hash, None))
      && (result.error.Some? ==> result.state == s)
  {
    T.Reached(actions);
    hide Run, CanRun;
    var s := Run(EMPTY, actions);
    if HoldsCheckout(s.checkouts, c, actor, fence) {
      Workspace(s, c, actor, fence);
      RevisionExact(s, s.checkouts[c].draft, hash, expected, None);
      GuardMeans(s, s.checkouts[c].situation);
    }
    hide Inv, CreateRevision, PublicationGuard, Unpublished, DraftOk, Latest, Revises;
  }

  /** Accepting suggestions succeeds exactly when the proposal is one of the checked-out
      situation, not superseded, and targets the head that the editor names. */
  lemma AcceptExact(actions: seq<Action>, actor: nat, c: nat, fence: nat, q: nat, revision: nat, rhash: Hash, hash: Hash)
    requires CanRun(EMPTY, actions)
    ensures var s := Run(EMPTY, actions); var result := AcceptChanges(s, actor, c, fence, q, revision, rhash, hash);
      && (HoldsCheckout(s.checkouts, c, actor, fence) ==>
            s.checkouts[c].draft < |s.drafts| && |s.drafts[s.checkouts[c].draft].revisions| > 0)
      && (result.error.None? <==>
            && HoldsCheckout(s.checkouts, c, actor, fence) && Unpublished(s, s.checkouts[c].situation)
            && var head := Head(s.drafts[s.checkouts[c].draft]);
            && (revision, rhash) == (head.id, head.hash)
            && q < |s.proposals| && s.proposals[q].review < |s.reviews|
            && s.reviews[s.proposals[q].review].situation == s.checkouts[c].situation
            && !s.proposals[q].superseded
            && s.proposals[q].currentRevision == revision && s.proposals[q].currentHash == rhash)
      && result.error ==
           Else(When(!HoldsCheckout(s.checkouts, c, actor, fence), StaleCheckout),
             Else(PublicationRefusal(s, SituationOf(s, c)),
               Else(When(NotHead(s, c, revision, rhash), StaleRevision),
                 Else(When(!(q < |s.proposals| && s.proposals[q].review < |s.reviews|
                             && s.reviews[s.proposals[q].review].situation == SituationOf(s, c)), ProposalNotFound),
                   Else(When(q < |s.proposals| && s.proposals[q].superseded, SupersededProposal),
                     When(q < |s.proposals| && (s.proposals[q].currentRevision, s.proposals[q].currentHash) != (revision, rhash),
                       StaleProposal))))))
      && (result.error.Some? ==> result.state == s)
  {
    T.Reached(actions);
    hide Run, CanRun;
    var s := Run(EMPTY, actions);
    if HoldsCheckout(s.checkouts, c, actor, fence) {
      Workspace(s, c, actor, fence);
      RevisionExact(s, s.checkouts[c].draft, hash, Some((revision, rhash)), Some(q));
      GuardMeans(s, s.checkouts[c].situation);
    }
    hide Inv, CreateRevision, PublicationGuard, Unpublished, DraftOk, Latest;
  }

  // ----- checkouts -----

  /** No checkout of the situation is active. */
  predicate Free(s: State, situation: nat) {
    forall e :: 0 <= e < |s.checkouts| ==> s.checkouts[e].situation != situation || s.checkouts[e].released
  }

  /** A draft with one revision of the given content. */
  function Begun(situation: nat, id: nat, hash: Hash): Draft {
    Draft(situation, true, [Revision(id, 1, None, hash)], 1, Some(hash))
  }

  /** The fence is raised, and the checkout works on the active draft `d`, or on a new one. */
  predicate ChecksOut(s: State, s': State, situation: nat, actor: nat, hash: Hash, d: nat)
    requires situation < |s.fences|
  {
    var taken := s.(fences := s.fences[situation := s.fences[situation] + 1],
                     checkouts := s.checkouts + [Checkout(situation, actor, d, s.fences[situation] + 1, false)]);
    if d < |s.drafts| then s.drafts[d].situation == situation && s.drafts[d].active && s' == taken
    else
      && d == |s.drafts| && (forall i :: 0 <= i < |s.drafts| ==> s.drafts[i].situation != situation || !s.drafts[i].active)
      && s' == taken.(drafts := s.drafts + [Begun(situation, s.nextRevision, hash)], nextRevision := s.nextRevision + 1)
  }

  /** A checkout is taken exactly when nothing is in recovery and the situation is free. */
  lemma CheckOutExact(actions: seq<Action>, situation: nat, actor: nat, hash: Hash)
    requires CanRun(EMPTY, actions) && situation < |Run(EMPTY, actions).fences|
    ensures var s := Run(EMPTY, actions); var result := CheckOut(s, situation, actor, hash);
      && result.error ==
           Else(When(RecoveryPending(s.publications), PublicationRecoveryRequired), When(!Free(s, situation), AlreadyCheckedOut))
      && (result.error.Some? ==> result.state == s)
      && (result.error.None? ==> exists d: nat :: ChecksOut(s, result.state, situation, actor, hash, d))
  {
    hide Run, CanRun, RecoveryPending;
    var s := Run(EMPTY, actions);
    var d := ActiveDraftOf(s.drafts, situation);
    NewDraft(s, situation, hash);
    var result := CheckOut(s, situation, actor, hash);
    assert result.error.None? ==> ChecksOut(s, result.state, situation, actor, hash, if d.Some? then d.value else |s.drafts|);
    hide ActiveDraftOf, CreateDraft;
  }

  /** A new situation gets its fence, a draft with one revision and a checkout; nothing
      but a recovery refuses it. */
  lemma NewSituationExact(s: State, actor: nat, hash: Hash)
    ensures var result := CreateSituation(s, actor, hash); var situation := |s.fences|;
      && (result.error.None? <==> !RecoveryPending(s.publications))
      && (result.error.Some? ==> result.state == s)
      && (result.error.None? ==>
            result.state == s.(fences := s.fences + [1], drafts := s.drafts + [Begun(situation, s.nextRevision, hash)], nextRevision := s.nextRevision + 1,
                               checkouts := s.checkouts + [Checkout(situation, actor, |s.drafts|, 1, false)]))
  {
    hide RecoveryPending;
    NewDraft(s.(fences := s.fences + [0]), |s.fences|, hash);
    assert (s.fences + [0])[|s.fences| := 1] == s.fences + [1];
    hide CreateDraft;
  }

  lemma NewDraft(s: State, situation: nat, hash: Hash)
    ensures CreateDraft(s, situation, hash) ==
      s.(drafts := s.drafts + [Begun(situation, s.nextRevision, hash)], nextRevision := s.nextRevision + 1)
  {
    var empty := Draft(situation, true, [], 0, None);
    var d := |s.drafts|;
    assert Latest([]).None?;
    assert (s.drafts + [empty])[d] == empty;
    assert [] + [Revision(s.nextRevision, 1, None, hash)] == [Revision(s.nextRevision, 1, None, hash)];
    assert (s.drafts + [empty])[d := Begun(situation, s.nextRevision, hash)] == s.drafts + [Begun(situation, s.nextRevision, hash)];
  }

  /** A check-in releases exactly this checkout and takes the lane from its reviews. */
  lemma CheckInExact(s: State, actor: nat, c: nat, fence: nat)
    ensures var result := CheckIn(s, actor, c, fence);
      && (result.error.None? <==>
            && HoldsCheckout(s.checkouts, c, actor, fence) && Unpublished(s, s.checkouts[c].situation)
            && !ReviewUnderway(s.reviews, s.checkouts[c].situation))
      && result.error ==
           Else(When(!HoldsCheckout(s.checkouts, c, actor, fence), StaleCheckout),
             Else(PublicationRefusal(s, SituationOf(s, c)), When(ReviewUnderway(s.reviews, SituationOf(s, c)), ReviewActive)))
      && (result.error.Some? ==> result.state == s)
      && (result.error.None? ==>
            && |result.state.reviews| == |s.reviews|
            && result.state == s.(checkouts := s.checkouts[c := s.checkouts[c].(released := true)], reviews := result.state.reviews)
            && forall r :: 0 <= r < |s.reviews| ==>
                 result.state.reviews[r] == if s.reviews[r].checkout == c
                                            then s.reviews[r].(job := s.reviews[r].job.(laneOwner := false)) else s.reviews[r])
  {
    hide ReviewUnderway, RecoveryPending, PublicationUnderway;
  }

  /** What a cancellation leaves of a review. */
  predicate Cancelled(a: R.Job, b: R.Job) {
    && b.state == R.Cancelled && !b.laneOwner && b.claimToken.None? && b.lease.None? && b.retryNotBefore.None? && b.fence == a.fence + 1
    && |b.steps| == |a.steps|
    && forall i :: 0 <= i < |a.steps| ==>
         b.steps[i] == if a.steps[i].state == R.Done then a.steps[i] else a.steps[i].(state := R.Dropped)
  }

  /** A forced check-in needs an active checkout and no publication; it cancels every
      review of that checkout that is not over, and raises the fence. */
  lemma ForceCheckInExact(actions: seq<Action>, situation: nat)
    requires CanRun(EMPTY, actions) && situation < |Run(EMPTY, actions).fences|
    ensures var s := Run(EMPTY, actions); var result := ForceCheckIn(s, situation);
      && result.error == Else(When(Free(s, situation), NoActiveCheckout), PublicationRefusal(s, situation))
      && (result.error.Some? ==> result.state == s)
      && (result.error.None? ==>
            exists c :: 0 <= c < |s.checkouts| && s.checkouts[c].situation == situation && !s.checkouts[c].released
              && |result.state.reviews| == |s.reviews|
              && result.state == s.(checkouts := s.checkouts[c := s.checkouts[c].(released := true)], reviews := result.state.reviews,
                                    fences := s.fences[situation := s.fences[situation] + 1])
              && forall r :: 0 <= r < |s.reviews| ==>
                   if s.reviews[r].checkout == c && (ActiveReview(s.reviews[r].job.state) || s.reviews[r].job.state == R.Failed)
                   then result.state.reviews[r] == s.reviews[r].(job := result.state.reviews[r].job)
                        && Cancelled(s.reviews[r].job, result.state.reviews[r].job)
                   else result.state.reviews[r] == s.reviews[r])
  {
    hide Run, CanRun, RecoveryPending, PublicationUnderway;
    var s := Run(EMPTY, actions);
    var c := ActiveCheckoutOf(s.checkouts, situation, 0);
    var result := ForceCheckIn(s, situation);
    if result.error.None? {
      CancelsAll(s.reviews, c);
    }
    hide CancelAll;
  }

  lemma CancelsAll(reviews: seq<Review>, c: nat)
    ensures forall r :: 0 <= r < |reviews| ==>
      if reviews[r].checkout == c && (ActiveReview(reviews[r].job.state) || reviews[r].job.state == R.Failed)
      then CancelAll(reviews, c)[r] == reviews[r].(job := CancelAll(reviews, c)[r].job) && Cancelled(reviews[r].job, CancelAll(reviews, c)[r].job)
      else CancelAll(reviews, c)[r] == reviews[r]
  {
  }

  /** A fresh start archives the draft of the checkout and works on a new one. */
  lemma StartOverExact(actions: seq<Action>, actor: nat, c: nat, fence: nat, restoring: bool, hash: Hash)
    requires CanRun(EMPTY, actions)
    ensures var s := Run(EMPTY, actions); var result := StartOver(s, actor, c, fence, restoring, hash);
      && (result.error.None? <==>
            && HoldsCheckout(s.checkouts, c, actor, fence) && Unpublished(s, s.checkouts[c].situation)
            && (restoring ==> !ReviewUnderway(s.reviews, s.checkouts[c].situation)))
      && result.error ==
           Else(When(!HoldsCheckout(s.checkouts, c, actor, fence), StaleCheckout),
             Else(PublicationRefusal(s, SituationOf(s, c)),
               When(restoring && ReviewUnderway(s.reviews, SituationOf(s, c)), ReviewActive)))
      && (result.error.Some? ==> result.state == s)
      && (result.error.None? ==>
            && s.checkouts[c].draft < |s.drafts|
            && var row := s.checkouts[c]; var begun := Begun(row.situation, s.nextRevision, hash);
            result.state == s.(drafts := s.drafts[row.draft := s.drafts[row.draft].(active := false)] + [begun],
                               nextRevision := s.nextRevision + 1, checkouts := s.checkouts[c := row.(draft := |s.drafts|)]))
  {
    T.Reached(actions);
    hide Run, CanRun;
    var s := Run(EMPTY, actions);
    if HoldsCheckout(s.checkouts, c, actor, fence) {
      Workspace(s, c, actor, fence);
      GuardMeans(s, s.checkouts[c].situation);
      NewDraft(s.(drafts := s.drafts[s.checkouts[c].draft := s.drafts[s.checkouts[c].draft].(active := false)]), s.checkouts[c].situation, hash);
    }
    hide Inv, CreateDraft, PublicationGuard, Unpublished, ReviewUnderway, Latest, DraftOk;
  }

  // ----- reviews -----

  /** A review is queued exactly when the editor names the head, no review of the
      checkout still owns the lane, nothing is published or reviewed there and the
      content is not refused; it is one new row with its four steps. */
  lemma QueueExact(actions: seq<Action>, actor: nat, c: nat, fence: nat, revision: nat, hash: Hash, content: Option<Error>)
    requires CanRun(EMPTY, actions)
    ensures var s := Run(EMPTY, actions); var result := QueueReview(s, actor, c, fence, revision, hash, content);
      && (HoldsCheckout(s.checkouts, c, actor, fence) ==>
            s.checkouts[c].draft < |s.drafts| && |s.drafts[s.checkouts[c].draft].revisions| > 0)
      && (result.error.None? <==>
            && HoldsCheckout(s.checkouts, c, actor, fence) && !FocusedReview(s.reviews, c, fence)
            && Unpublished(s, s.checkouts[c].situation) && content.None? && !ReviewUnderway(s.reviews, s.checkouts[c].situation)
            && var head := Head(s.drafts[s.checkouts[c].draft]); (revision, hash) == (head.id, head.hash))
      && result.error ==
           Else(When(!HoldsCheckout(s.checkouts, c, actor, fence), StaleCheckout),
             Else(When(FocusedReview(s.reviews, c, fence), ReviewFocusedUnresolved),
               Else(PublicationRefusal(s, SituationOf(s, c)),
                 Else(When(NotHead(s, c, revision, hash), StaleRevision),
                   Else(content, When(ReviewUnderway(s.reviews, SituationOf(s, c)), ReviewActive))))))
      && (result.error.Some? ==> result.state == s)
      && (result.error.None? ==>
            result.state == s.(reviews := s.reviews + [
              Review(s.checkouts[c].situation, c, fence, s.checkouts[c].draft, revision, hash, R.NewJob())]))
  {
    T.Reached(actions);
    hide Run, CanRun;
    var s := Run(EMPTY, actions);
    if HoldsCheckout(s.checkouts, c, actor, fence) {
      Workspace(s, c, actor, fence);
      GuardMeans(s, s.checkouts[c].situation);
    }
    hide Inv, PublicationGuard, Unpublished, ReviewUnderway, FocusedReview, Latest, DraftOk;
  }

  /** A new review: QUEUED, the first step READY and the others waiting, nothing run, no claim. */
  lemma NewReviewWaits()
    ensures var job := R.NewJob();
      && job.state == R.Queued && job.claimToken.None? && job.lease.None? && job.retryNotBefore.None? && !job.laneOwner
      && |job.steps| == 4
      && forall i :: 0 <= i < 4 ==>
           job.steps[i].state == (if i == 0 then R.Ready else R.Pending) && job.steps[i].attempts == 0 && job.steps[i].completed == 0
  {
  }

  /** A review that is not over is cancelled by whoever holds its checkout and names its input. */
  lemma CancelExact(s: State, actor: nat, r: nat, revision: nat, hash: Hash)
    ensures var result := CancelReview(s, actor, r, revision, hash);
      && (result.error.None? <==>
            && r < |s.reviews| && (ActiveReview(s.reviews[r].job.state) || s.reviews[r].job.state == R.Failed)
            && s.reviews[r].inputRevision == revision && s.reviews[r].inputHash == hash
            && HoldsCheckout(s.checkouts, s.reviews[r].checkout, actor, s.reviews[r].checkoutFence))
      && (r < |s.reviews| && (ActiveReview(s.reviews[r].job.state) || s.reviews[r].job.state == R.Failed) ==>
            result.error ==
              Else(When((s.reviews[r].inputRevision, s.reviews[r].inputHash) != (revision, hash), StaleReview),
                When(!HoldsCheckout(s.checkouts, s.reviews[r].checkout, actor, s.reviews[r].checkoutFence), CheckoutOwnerRequired)))
      && (!(r < |s.reviews| && (ActiveReview(s.reviews[r].job.state) || s.reviews[r].job.state == R.Failed)) ==>
            result.error == Some(ReviewUnavailable))
      && (result.error.Some? ==> result.state == s)
      && (result.error.None? ==>
            && |result.state.reviews| == |s.reviews| && Cancelled(s.reviews[r].job, result.state.reviews[r].job)
            && result.state == s.(reviews := s.reviews[r := s.reviews[r].(job := result.state.reviews[r].job)]))
  {
  }

  /** What a manual retry leaves of a failed review: the first FAILED step is READY, the
      steps after it wait unless they are done, and nothing else moves. */
  predicate Reopened(a: R.Job, b: R.Job) {
    var k := R.FirstIn(a.steps, R.Broken, 0);
    && b.state == R.Queued && b.laneOwner && b.claimToken.None? && b.lease.None? && b.retryNotBefore.None? && b.fence == a.fence
    && |b.steps| == |a.steps|
    && forall i :: 0 <= i < |a.steps| ==>
         && b.steps[i].attempts == a.steps[i].attempts && b.steps[i].completed == a.steps[i].completed
         && b.steps[i].state == if i == k then R.Ready
                                else if i > k && a.steps[i].state != R.Done then R.Pending else a.steps[i].state
  }

  /** A failed review is resumed by whoever holds its checkout and names its input, when
      a step has failed, the lane is free and nothing is published or reviewed there. */
  lemma RetryExact(actions: seq<Action>, actor: nat, r: nat, revision: nat, hash: Hash)
    requires CanRun(EMPTY, actions)
    ensures var s := Run(EMPTY, actions); var result := RetryReview(s, actor, r, revision, hash);
      && (!(r < |s.reviews| && s.reviews[r].job.state == R.Failed) ==> result.error == Some(ReviewUnavailable))
      && (r < |s.reviews| && s.reviews[r].job.state == R.Failed ==>
            var row := s.reviews[r];
            result.error ==
              Else(When((row.inputRevision, row.inputHash) != (revision, hash), StaleReview),
                Else(When(!HoldsCheckout(s.checkouts, row.checkout, actor, row.checkoutFence), StaleCheckout),
                  Else(PublicationRefusal(s, row.situation),
                    Else(When(forall i :: 0 <= i < |row.job.steps| ==> row.job.steps[i].state != R.Broken, NoResumableStep),
                      When((exists q :: 0 <= q < |s.reviews| && s.reviews[q].job.laneOwner) || ReviewUnderway(s.reviews, row.situation),
                        ReviewLaneBusy))))))
      && (result.error.Some? ==> result.state == s)
      && (result.error.None? ==>
            && |result.state.reviews| == |s.reviews| && Reopened(s.reviews[r].job, result.state.reviews[r].job)
            && result.state == s.(reviews := s.reviews[r := s.reviews[r].(job := result.state.reviews[r].job)]))
  {
    T.Reached(actions);
    hide Run, CanRun, Inv, RetryReview, Reopened, Else, When, PublicationRefusal;
    var s := Run(EMPTY, actions);
    if r < |s.reviews| && s.reviews[r].job.state == R.Failed {
      FailedOwnsNothing(s, r);
      RetrySteps(s, actor, r, revision, hash);
    }
    RetryLeaves(s, actor, r, revision, hash);
  }

  lemma RetryLeaves(s: State, actor: nat, r: nat, revision: nat, hash: Hash)
    ensures var result := RetryReview(s, actor, r, revision, hash);
      && (!(r < |s.reviews| && s.reviews[r].job.state == R.Failed) ==> result.error == Some(ReviewUnavailable))
      && (result.error.Some? ==> result.state == s)
      && (result.error.None? ==>
            && |result.state.reviews| == |s.reviews| && Reopened(s.reviews[r].job, result.state.reviews[r].job)
            && result.state == s.(reviews := s.reviews[r := s.reviews[r].(job := result.state.reviews[r].job)]))
  {
    if r < |s.reviews| && s.reviews[r].job.state == R.Failed && R.FirstIn(s.reviews[r].job.steps, R.Broken, 0) < |s.reviews[r].job.steps| {
      RetryReopens(s.reviews[r].job);
    }
    hide PublicationGuard, ReviewUnderway, Reopened, R.ManualRetry;
  }

  lemma FailedOwnsNothing(s: State, r: nat)
    requires Inv(s) && r < |s.reviews| && s.reviews[r].job.state == R.Failed
    ensures !s.reviews[r].job.laneOwner
  {
    assert ReviewOk(s.reviews[r], s.checkouts, |s.drafts|);
  }

  lemma RetrySteps(s: State, actor: nat, r: nat, revision: nat, hash: Hash)
    requires r < |s.reviews| && s.reviews[r].job.state == R.Failed && !s.reviews[r].job.laneOwner
    ensures var row := s.reviews[r];
      RetryReview(s, actor, r, revision, hash).error ==
        Else(When((row.inputRevision, row.inputHash) != (revision, hash), StaleReview),
          Else(When(!HoldsCheckout(s.checkouts, row.checkout, actor, row.checkoutFence), StaleCheckout),
            Else(PublicationRefusal(s, row.situation),
              Else(When(forall i :: 0 <= i < |row.job.steps| ==> row.job.steps[i].state != R.Broken, NoResumableStep),
                When((exists q :: 0 <= q < |s.reviews| && s.reviews[q].job.laneOwner) || ReviewUnderway(s.reviews, row.situation),
                  ReviewLaneBusy)))))
  {
    hide ReviewUnderway, R.ManualRetry, RecoveryPending, PublicationUnderway;
  }

  lemma RetryReopens(job: R.Job)
    requires job.state == R.Failed && R.FirstIn(job.steps, R.Broken, 0) < |job.steps|
    ensures Reopened(job, R.ManualRetry(job))
  {
  }

  /** The review that the lane belongs to, or else the oldest queued one whose checkout is active. */
  predicate Next(s: State, r: nat) {
    && r < |s.reviews|
    && (s.reviews[r].job.laneOwner
        || (&& (forall q :: 0 <= q < |s.reviews| ==> !s.reviews[q].job.laneOwner)
            && s.reviews[r].job.state == R.Queued && CheckoutActive(s.checkouts, s.reviews[r])
            && forall q :: 0 <= q < r ==> !(s.reviews[q].job.state == R.Queued && CheckoutActive(s.checkouts, s.reviews[q]))))
  }

  /** The review runs under a fresh claim; a stage that its lapsed claim had left running is READY again. */
  predicate Started(a: R.Job, b: R.Job, token: nat, lease: int) {
    && b.state == R.Running && b.claimToken == Some(token) && b.lease == Some(lease) && b.retryNotBefore.None?
    && b.laneOwner && b.fence == a.fence && b.pc == R.Top && |b.steps| == |a.steps|
    && forall i :: 0 <= i < |a.steps| ==>
         && b.steps[i].attempts == a.steps[i].attempts && b.steps[i].completed == a.steps[i].completed
         && b.steps[i].state == if a.state == R.Running && a.steps[i].state == R.Executing then R.Ready else a.steps[i].state
  }

  /** `claimed` is the review whose turn it is, unless it must wait. */
  predicate Claims(s: State, s': State, claimed: Option<nat>, now: int, leaseMs: int) {
    match claimed
    case Some(r) =>
      && Next(s, r) && !MustWait(s.reviews[r].job, now) && |s'.reviews| == |s.reviews|
      && Started(s.reviews[r].job, s'.reviews[r].job, s.nextToken, now + leaseMs)
      && s' == s.(reviews := s.reviews[r := s.reviews[r].(job := s'.reviews[r].job)], nextToken := s.nextToken + 1)
    case None =>
      forall r :: 0 <= r < |s.reviews| && Next(s, r) ==>
        MustWait(s.reviews[r].job, now) && s' == s.(reviews := s.reviews[r := s.reviews[r].(job := s.reviews[r].job.(laneOwner := true))])
  }

  lemma ClaimsExactly(s: State, now: int, leaseMs: int)
    requires OneLaneOwner(s.reviews)
    requires forall q :: 0 <= q < |s.reviews| && s.reviews[q].job.laneOwner ==> Selectable(s, q)
    ensures var focus := Focus(s);
      && (focus.1.Some? ==> focus.1.value < |focus.0.reviews|)
      && Claims(s, ClaimNextReview(s, now, leaseMs),
           if focus.1.None? || MustWait(focus.0.reviews[focus.1.value].job, now) then None else focus.1, now, leaseMs)
  {
    SomeoneIsNext(s);
    forall r | 0 <= r < |s.reviews| && Next(s, r)
      ensures Focus(s) == (SetReviewJob(s, r, s.reviews[r].job.(laneOwner := true)), Some(r))
    {
      FocusIs(s, r);
    }
    if Focus(s).1.Some? {
      NextIsClaimed(s, Focus(s).1.value, now, leaseMs);
    }
    hide Next, Focus, Selectable, Started, R.Claim, OneLaneOwner, ClaimNextReview;
  }

  /** The review whose turn it is starts at once unless it must wait: then it only owns
      the lane.  Nobody else is touched, and when it is nobody's turn nothing changes. */
  lemma ClaimExact(actions: seq<Action>, now: int, leaseMs: int)
    requires CanRun(EMPTY, actions)
    ensures var s := Run(EMPTY, actions); var s' := ClaimNextReview(s, now, leaseMs);
      && |s'.reviews| == |s.reviews|
      && (forall r :: 0 <= r < |s.reviews| && Next(s, r) && !MustWait(s.reviews[r].job, now) ==>
            && Started(s.reviews[r].job, s'.reviews[r].job, s.nextToken, now + leaseMs)
            && s' == s.(reviews := s.reviews[r := s.reviews[r].(job := s'.reviews[r].job)], nextToken := s.nextToken + 1))
      && (forall r :: 0 <= r < |s.reviews| && Next(s, r) && MustWait(s.reviews[r].job, now) ==>
            s' == s.(reviews := s.reviews[r := s.reviews[r].(job := s.reviews[r].job.(laneOwner := true))]))
      && ((forall r :: 0 <= r < |s.reviews| ==> !Next(s, r)) ==> s' == s)
  {
    T.Reached(actions);
    var s := Run(EMPTY, actions);
    OwnerIsSelectable(s);
    OneOwner(s);
    hide Inv, Run, CanRun;
    forall r | 0 <= r < |s.reviews| && Next(s, r)
      ensures var s' := ClaimNextReview(s, now, leaseMs);
        if MustWait(s.reviews[r].job, now) then s' == s.(reviews := s.reviews[r := s.reviews[r].(job := s.reviews[r].job.(laneOwner := true))])
        else
          && |s'.reviews| == |s.reviews| && Started(s.reviews[r].job, s'.reviews[r].job, s.nextToken, now + leaseMs)
          && s' == s.(reviews := s.reviews[r := s.reviews[r].(job := s'.reviews[r].job)], nextToken := s.nextToken + 1)
    {
      NextIsClaimed(s, r, now, leaseMs);
    }
    if forall r :: 0 <= r < |s.reviews| ==> !Next(s, r) {
      NobodyIsClaimed(s, now, leaseMs);
    }
    hide *;
    SomeoneOrNobody(s, now, leaseMs);
  }

  lemma OneOwner(s: State)
    requires Inv(s)
    ensures OneLaneOwner(s.reviews)
  {
  }

  lemma SomeoneOrNobody(s: State, now: int, leaseMs: int)
    ensures |ClaimNextReview(s, now, leaseMs).reviews| == |s.reviews|
  {
    hide R.Claim, MustWait, Selectable;
  }

  lemma FocusIs(s: State, r: nat)
    requires OneLaneOwner(s.reviews) && Next(s, r)
    requires forall q :: 0 <= q < |s.reviews| && s.reviews[q].job.laneOwner ==> Selectable(s, q)
    ensures Focus(s) == (SetReviewJob(s, r, s.reviews[r].job.(laneOwner := true)), Some(r))
  {
    var owner := LaneOwner(s.reviews, 0);
    if s.reviews[r].job.laneOwner {
      assert owner == r;
      assert s.reviews[r := s.reviews[r].(job := s.reviews[r].job.(laneOwner := true))] == s.reviews;
    } else {
      assert owner == |s.reviews|;
      assert NextQueued(s.reviews, s.checkouts, 0) == r;
    }
  }

  /** Nobody is focused unless it is that review's turn. */
  lemma SomeoneIsNext(s: State)
    requires forall q :: 0 <= q < |s.reviews| && s.reviews[q].job.laneOwner ==> Selectable(s, q)
    ensures |Focus(s).0.reviews| == |s.reviews|
    ensures if Focus(s).1.Some? then Next(s, Focus(s).1.value) else Focus(s).0 == s
  {
    var owner := LaneOwner(s.reviews, 0);
    if owner < |s.reviews| {
      assert Next(s, owner);
    } else {
      var next := NextQueued(s.reviews, s.checkouts, 0);
      if next < |s.reviews| {
        assert Next(s, next);
      }
    }
  }

  lemma NextIsClaimed(s: State, r: nat, now: int, leaseMs: int)
    requires OneLaneOwner(s.reviews) && Next(s, r)
    requires forall q :: 0 <= q < |s.reviews| && s.reviews[q].job.laneOwner ==> Selectable(s, q)
    ensures var s' := ClaimNextReview(s, now, leaseMs);
      if MustWait(s.reviews[r].job, now) then s' == s.(reviews := s.reviews[r := s.reviews[r].(job := s.reviews[r].job.(laneOwner := true))])
      else
        && |s'.reviews| == |s.reviews| && Started(s.reviews[r].job, s'.reviews[r].job, s.nextToken, now + leaseMs)
        && s' == s.(reviews := s.reviews[r := s.reviews[r].(job := s'.reviews[r].job)], nextToken := s.nextToken + 1)
  {
    FocusIs(s, r);
    var owned := s.reviews[r].job.(laneOwner := true);
    ClaimStarts(s.reviews[r].job, owned, s.nextToken, now, leaseMs);
    hide Focus, Selectable, Next, R.Claim, Started, OneLaneOwner;
  }

  lemma ClaimStarts(job: R.Job, owned: R.Job, token: nat, now: int, leaseMs: int)
    requires owned == job.(laneOwner := true)
    ensures Started(job, R.Claim(owned, token, now, leaseMs), token, now + leaseMs)
  {
  }

  lemma NobodyIsClaimed(s: State, now: int, leaseMs: int)
    requires forall q :: 0 <= q < |s.reviews| && s.reviews[q].job.laneOwner ==> Selectable(s, q)
    requires forall r :: 0 <= r < |s.reviews| ==> !Next(s, r)
    ensures ClaimNextReview(s, now, leaseMs) == s
  {
    var owner := LaneOwner(s.reviews, 0);
    if owner < |s.reviews| {
      assert Next(s, owner);
    }
    var next := NextQueued(s.reviews, s.checkouts, 0);
    if next < |s.reviews| {
      assert Next(s, next);
    }
  }

  /** A materialised candidate ends its review and leaves one proposal for it, open
      exactly when the reviewed revision is still the head of the draft. */
  lemma ProposeExact(actions: seq<Action>, r: nat)
    requires CanRun(EMPTY, actions) && Enabled(Run(EMPTY, actions), Propose(r))
    ensures var s := Run(EMPTY, actions); var s' := Apply(s, Propose(r)); var row := s.reviews[r];
      && |s.drafts[row.draft].revisions| > 0 && |s'.reviews| == |s.reviews| && |s'.proposals| >= |s.proposals|
      && s' == s.(reviews := s.reviews[r := row.(job := s'.reviews[r].job)], proposals := s'.proposals)
      && s'.reviews[r].job == row.job.(state := R.Succeeded, laneOwner := false, retryNotBefore := None, claimToken := None, lease := None, pc := R.Gone)
      && (if exists q :: 0 <= q < |s.proposals| && s.proposals[q].review == r then s'.proposals == s.proposals
          else
            var head := Head(s.drafts[row.draft]);
            s'.proposals == s.proposals + [Proposal(r, row.draft, row.inputRevision, row.inputRevision, row.inputHash,
                                                    (head.id, head.hash) != (row.inputRevision, row.inputHash))])
  {
    T.Reached(actions);
    hide Run, CanRun;
    var s := Run(EMPTY, actions);
    assert DraftOk(s.drafts[s.reviews[r].draft], s.nextRevision);
    LatestIsHead(s.drafts[s.reviews[r].draft], s.nextRevision);
    hide Inv, Latest, DraftOk, R.StepEnabled;
  }

  // ----- publication -----

  /** An accepted request of a receipt that was not requested before adds one REQUESTED
      row, pinned to the editor's checkout and to the head of its draft; a repeated
      request and a refusal change nothing. */
  lemma RequestEffect(actions: seq<Action>, preflight: Preflight, receipt: nat, actor: nat, c: nat, fence: nat, revision: nat, hash: Hash)
    requires CanRun(EMPTY, actions)
    ensures var s := Run(EMPTY, actions); var result := RequestPublication(s, preflight, receipt, actor, c, fence, revision, hash);
      && result.error ==
           Else(When(RecoveryPending(s.publications), PublicationRecoveryRequired),
             Else(When(!preflight.found, PreflightRequired),
               Else(When(!preflight.matches, StalePreflightReceipt),
                 if Requested(s.publications, receipt) then None
                 else
                   Else(preflight.early,
                     Else(When(!HoldsCheckout(s.checkouts, c, actor, fence) || NotHead(s, c, revision, hash), StalePreflightReceipt),
                       Else(When(PublicationUnderway(s.publications, SituationOf(s, c)), PublicationActive),
                         Else(When(ReviewUnderway(s.reviews, SituationOf(s, c)), ReviewActive), preflight.late)))))))
      && (result.error.Some? || Requested(s.publications, receipt) ==> result.state == s)
      && (result.error.None? && !Requested(s.publications, receipt) ==>
            && HoldsCheckout(s.checkouts, c, actor, fence)
            && var d := s.checkouts[c].draft;
            && d < |s.drafts| && |s.drafts[d].revisions| > 0
            && Head(s.drafts[d]).id == revision && Head(s.drafts[d]).hash == hash
            && result.state == s.(publications := s.publications + [
                 Publication(receipt, s.checkouts[c].situation, c, fence, d, Head(s.drafts[d]).id, Head(s.drafts[d]).hash, P.Requested)]))
  {
    T.PublishExact(actions, preflight, receipt, actor, c, fence, revision, hash);
    T.Reached(actions);
    hide Run, CanRun, RecoveryPending, Requested, PublicationUnderway, ReviewUnderway, FindRevision, Inv, RequestPublication;
    var s := Run(EMPTY, actions);
    if HoldsCheckout(s.checkouts, c, actor, fence) {
      Workspace(s, c, actor, fence);
      NamesHead(s, c, revision, hash);
    }
    RequestSteps(s, preflight, receipt, actor, c, fence, revision, hash);
    hide NotHead, DraftOk, Latest;
  }

  /** The two ways in which the transaction tests that the editor names the head. */
  predicate Mismatch(s: State, c: nat, revision: nat, hash: Hash)
    requires c < |s.checkouts| && s.checkouts[c].draft < |s.drafts|
  {
    var draft := s.drafts[s.checkouts[c].draft];
    var target := FindRevision(draft.revisions, revision);
    target.None? || target.value.hash != hash || draft.currentNumber != target.value.number || draft.currentHash != Some(hash)
  }

  lemma NamesHead(s: State, c: nat, revision: nat, hash: Hash)
    requires Inv(s) && c < |s.checkouts| && s.checkouts[c].draft < |s.drafts|
    ensures Mismatch(s, c, revision, hash) <==> NotHead(s, c, revision, hash)
    ensures |s.drafts[s.checkouts[c].draft].revisions| > 0
  {
    var draft := s.drafts[s.checkouts[c].draft];
    assert DraftOk(draft, s.nextRevision);
    T.HeadIsFound(s, s.checkouts[c].draft);
    var target := FindRevision(draft.revisions, revision);
    if target.Some? && target.value.number == draft.currentNumber {
      TargetIsHead(draft, s.nextRevision, revision);
    }
    hide Inv, FindRevision;
  }

  lemma RequestSteps(s: State, preflight: Preflight, receipt: nat, actor: nat, c: nat, fence: nat, revision: nat, hash: Hash)
    requires HoldsCheckout(s.checkouts, c, actor, fence) ==>
      s.checkouts[c].draft < |s.drafts| && (Mismatch(s, c, revision, hash) <==> NotHead(s, c, revision, hash))
    ensures var result := RequestPublication(s, preflight, receipt, actor, c, fence, revision, hash);
      && result.error ==
           Else(When(RecoveryPending(s.publications), PublicationRecoveryRequired),
             Else(When(!preflight.found, PreflightRequired),
               Else(When(!preflight.matches, StalePreflightReceipt),
                 if Requested(s.publications, receipt) then None
                 else
                   Else(preflight.early,
                     Else(When(!HoldsCheckout(s.checkouts, c, actor, fence) || NotHead(s, c, revision, hash), StalePreflightReceipt),
                       Else(When(PublicationUnderway(s.publications, SituationOf(s, c)), PublicationActive),
                         Else(When(ReviewUnderway(s.reviews, SituationOf(s, c)), ReviewActive), preflight.late)))))))
      && (result.error.Some? || Requested(s.publications, receipt) ==> result.state == s)
      && (result.error.None? && !Requested(s.publications, receipt) ==>
            && c < |s.checkouts|
            && result.state == s.(publications := s.publications + [
                 Publication(receipt, s.checkouts[c].situation, c, fence, s.checkouts[c].draft, revision, hash, P.Requested)]))
  {
    hide RecoveryPending, Requested, PublicationUnderway, ReviewUnderway, FindRevision, NotHead;
  }

  /** Finalising a VERIFYING job makes it SUCCEEDED, releases its checkout and archives its
      draft; in every other state nothing happens. */
  lemma FinalizeExact(actions: seq<Action>, p: nat)
    requires CanRun(EMPTY, actions) && p < |Run(EMPTY, actions).publications|
    ensures var s := Run(EMPTY, actions); var s' := FinalizeSuccess(s, p); var row := s.publications[p];
      && (row.state != P.Verifying ==> s' == s)
      && (row.state == P.Verifying ==>
            && row.checkout < |s.checkouts| && row.draft < |s.drafts|
            && s' == s.(publications := s.publications[p := row.(state := P.Succeeded)],
                        checkouts := s.checkouts[row.checkout := s.checkouts[row.checkout].(released := true)],
                        drafts := s.drafts[row.draft := s.drafts[row.draft].(active := false)]))
  {
    if Run(EMPTY, actions).publications[p].state == P.Verifying {
      T.WorkspacePinned(actions, p);
    }
    hide Run, CanRun;
  }

  /** Any other move changes the state of that one job: out of a state that pins the
      workspace, never back to REQUESTED nor to SUCCEEDED, and to PROMOTING or VERIFYING
      only beside no other such job. */
  lemma MoveExact(s: State, p: nat, to: P.JobState)
    requires p < |s.publications|
    ensures var from := s.publications[p].state;
      MovePublication(s, p, to) ==
        if && from in {P.Requested, P.Assembling, P.Promoting, P.Verifying, P.RecoveryRequired}
           && to !in {P.Requested, P.Succeeded}
           && (to in {P.Promoting, P.Verifying} ==>
                 forall q :: 0 <= q < |s.publications| && q != p ==> s.publications[q].state !in {P.Promoting, P.Verifying})
        then s.(publications := s.publications[p := s.publications[p].(state := to)]) else s
  {
  }
}
