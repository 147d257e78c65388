/** The editorial transactions as they run: the rows are updated in place, a failed
    check leaves at once, and an update of many rows is a loop.  Every method keeps
    the invariant and is tied to the transaction function that specifies it. */
module WorkflowStore {
  import opened Common
  import W = Workflow
  import I = WorkflowInvariant
  import S = WorkflowSteps
  import P = PublicationProtocol
  import R = ReviewChain
  import E = WorkflowEffects

  class Studio {
    var fences: seq<nat>
    var drafts: seq<W.Draft>
    var checkouts: seq<W.Checkout>
    var reviews: seq<W.Review>
    var proposals: seq<W.Proposal>
    var publications: seq<W.Publication>
    var nextRevision: nat
    var nextToken: nat

    ghost function View(): W.State
      reads this
    {
      W.State(fences, drafts, checkouts, reviews, proposals, publications, nextRevision, nextToken)
    }

    ghost predicate Valid()
      reads this
    {
      I.Inv(View())
    }

    constructor ()
      ensures Valid() && View() == W.EMPTY
    {
      fences, drafts, checkouts, reviews, proposals, publications := [], [], [], [], [], [];
      nextRevision, nextToken := 0, 0;
    }

    /** The updateMany at the end of createRevision. */
    method SupersedeProposals(previous: nat, preserve: Option<nat>)
      modifies this`proposals
      ensures proposals == W.Supersede(old(proposals), previous, preserve)
    {
      hide W.Supersede;
      ghost var superseded := W.Supersede(proposals, previous, preserve);
      for q := 0 to |proposals|
        invariant |proposals| == |old(proposals)|
        invariant proposals[..q] == superseded[..q] && proposals[q..] == old(proposals)[q..]
      {
        if proposals[q].currentRevision == previous && preserve != Some(q) {
          proposals := proposals[q := proposals[q].(superseded := true)];
        }
        assert proposals[q] == superseded[q];
      }
    }

    /** createRevision: None is the stale-revision error. */
    method CreateRevision(d: nat, hash: W.Hash, expected: Option<(nat, W.Hash)>, preserve: Option<nat>)
      returns (revision: Option<W.Revision>)
      requires d < |drafts|
      modifies this`drafts, this`proposals, this`nextRevision
      ensures var made := W.CreateRevision(old(View()), d, hash, expected, preserve);
        View() == made.state && revision == made.revision
      ensures revision.None? ==> View() == old(View())
      ensures revision.Some? ==> |drafts| == |old(drafts)| && revision.value.hash == hash && revision.value in drafts[d].revisions
      ensures revision.Some? && revision.value !in old(drafts)[d].revisions ==>
        forall q :: 0 <= q < |proposals| && Some(proposals[q].currentRevision) == revision.value.parent && preserve != Some(q) ==>
          proposals[q].superseded
    {
      hide W.Latest, W.Supersede;
      var draft := drafts[d];
      var previous := W.Latest(draft.revisions);
      if expected.Some? && (previous.None? || previous.value.id != expected.value.0 || previous.value.hash != expected.value.1) {
        return None;
      }
      if previous.Some? && previous.value.hash == hash {
        return previous;
      }
      var row := W.Revision(nextRevision, draft.currentNumber + 1,
                            if previous.Some? then Some(previous.value.id) else None, hash);
      nextRevision := nextRevision + 1;
      draft := draft.(revisions := draft.revisions + [row]);
      draft := draft.(currentNumber := row.number, currentHash := Some(row.hash));
      drafts := drafts[d := draft];
      if previous.Some? {
        SupersedeProposals(previous.value.id, preserve);
      }
      return Some(row);
    }

    method SaveDraft(actor: nat, c: nat, fence: nat, expected: Option<(nat, W.Hash)>, hash: W.Hash, content: Option<W.Error>)
      returns (error: Option<W.Error>)
      requires Valid()
      modifies this
      ensures Valid()
      ensures W.Outcome(View(), error) == W.SaveDraft(old(View()), actor, c, fence, expected, hash, content)
    {
      hide I.Inv;
      S.SaveKeeps(View(), actor, c, fence, expected, hash, content);
      RowsExist(View());
      if !W.HoldsCheckout(checkouts, c, actor, fence) {
        return Some(W.StaleCheckout);
      }
      var guard := W.PublicationGuard(publications, checkouts[c].situation);
      if guard.Some? {
        return guard;
      }
      if content.Some? {
        return content;
      }
      var revision := CreateRevision(checkouts[c].draft, hash, expected, None);
      return if revision.None? then Some(W.StaleRevision) else None;
    }

    /** The updateMany of checkInSituation. */
    method LeaveLane(c: nat)
      modifies this`reviews
      ensures reviews == W.LeaveLane(old(reviews), c)
    {
      for r := 0 to |reviews|
        invariant |reviews| == |old(reviews)|
        invariant forall i :: 0 <= i < |reviews| ==>
          reviews[i] == if i < r then W.LeaveLane(old(reviews), c)[i] else old(reviews)[i]
      {
        if reviews[r].checkout == c && reviews[r].job.laneOwner {
          reviews := reviews[r := reviews[r].(job := reviews[r].job.(laneOwner := false))];
        }
      }
    }

    method CheckIn(actor: nat, c: nat, fence: nat) returns (error: Option<W.Error>)
      requires Valid()
      modifies this
      ensures Valid()
      ensures W.Outcome(View(), error) == W.CheckIn(old(View()), actor, c, fence)
    {
      hide I.Inv;
      S.CheckInKeeps(View(), actor, c, fence);
      if !W.HoldsCheckout(checkouts, c, actor, fence) {
        return Some(W.StaleCheckout);
      }
      var guard := W.PublicationGuard(publications, checkouts[c].situation);
      if guard.Some? {
        return guard;
      }
      if W.ReviewUnderway(reviews, checkouts[c].situation) {
        return Some(W.ReviewActive);
      }
      LeaveLane(c);
      checkouts := checkouts[c := checkouts[c].(released := true)];
      return None;
    }

    /** The two updateMany calls of forceCheckInSituation. */
    method CancelReviews(c: nat)
      modifies this`reviews
      ensures reviews == W.CancelAll(old(reviews), c)
    {
      for r := 0 to |reviews|
        invariant |reviews| == |old(reviews)|
        invariant forall i :: 0 <= i < |reviews| ==>
          reviews[i] == if i < r then W.CancelAll(old(reviews), c)[i] else old(reviews)[i]
      {
        if reviews[r].checkout == c && W.Stoppable(reviews[r].job.state) {
          reviews := reviews[r := reviews[r].(job := R.Cancel(reviews[r].job))];
        }
      }
    }

    method ForceCheckIn(situation: nat) returns (error: Option<W.Error>)
      requires Valid() && situation < |fences|
      modifies this
      ensures Valid()
      ensures W.Outcome(View(), error) == W.ForceCheckIn(old(View()), situation)
    {
      hide I.Inv;
      S.ForceCheckInKeeps(View(), situation);
      var c := W.ActiveCheckoutOf(checkouts, situation, 0);
      if c == |checkouts| {
        return Some(W.NoActiveCheckout);
      }
      var guard := W.PublicationGuard(publications, situation);
      if guard.Some? {
        return guard;
      }
      CancelReviews(c);
      checkouts := checkouts[c := checkouts[c].(released := true)];
      fences := fences[situation := fences[situation] + 1];
      return None;
    }

    method QueueReview(actor: nat, c: nat, fence: nat, revision: nat, hash: W.Hash, content: Option<W.Error>)
      returns (error: Option<W.Error>)
      requires Valid()
      modifies this
      ensures Valid()
      ensures W.Outcome(View(), error) == W.QueueReview(old(View()), actor, c, fence, revision, hash, content)
    {
      hide I.Inv;
      S.QueueKeeps(View(), actor, c, fence, revision, hash, content);
      RowsExist(View());
      if !W.HoldsCheckout(checkouts, c, actor, fence) {
        return Some(W.StaleCheckout);
      }
      var checkout := checkouts[c];
      if W.FocusedReview(reviews, c, fence) {
        return Some(W.ReviewFocusedUnresolved);
      }
      var guard := W.PublicationGuard(publications, checkout.situation);
      if guard.Some? {
        return guard;
      }
      var head := W.Latest(drafts[checkout.draft].revisions);
      if head.None? || head.value.id != revision || head.value.hash != hash {
        return Some(W.StaleRevision);
      }
      if content.Some? {
        return content;
      }
      if W.ReviewUnderway(reviews, checkout.situation) {
        return Some(W.ReviewActive);
      }
      reviews := reviews + [W.Review(checkout.situation, c, fence, checkout.draft, revision, hash, R.NewJob())];
      return None;
    }

    method RetryReview(actor: nat, r: nat, revision: nat, hash: W.Hash) returns (error: Option<W.Error>)
      requires Valid()
      modifies this
      ensures Valid()
      ensures W.Outcome(View(), error) == W.RetryReview(old(View()), actor, r, revision, hash)
      ensures error.Some? ==> View() == old(View())
      ensures error.None? ==> r < |reviews| && reviews[r].job.state == R.Queued && reviews[r].job.laneOwner
      ensures error.None? ==> forall q :: 0 <= q < |reviews| && q != r ==> !reviews[q].job.laneOwner
    {
      hide I.Inv;
      S.RetryKeeps(View(), actor, r, revision, hash);
      if r >= |reviews| || reviews[r].job.state != R.Failed {
        return Some(W.ReviewUnavailable);
      }
      var row := reviews[r];
      if row.inputRevision != revision || row.inputHash != hash {
        return Some(W.StaleReview);
      }
      if !W.HoldsCheckout(checkouts, row.checkout, actor, row.checkoutFence) {
        return Some(W.StaleCheckout);
      }
      var guard := W.PublicationGuard(publications, row.situation);
      if guard.Some? {
        return guard;
      }
      if R.FirstIn(row.job.steps, R.Broken, 0) == |row.job.steps| {
        return Some(W.NoResumableStep);
      }
      var owner := W.LaneOwner(reviews, 0);
      if owner == r {
        owner := W.LaneOwner(reviews, r + 1);
      }
      if owner < |reviews| || W.ReviewUnderway(reviews, row.situation) {
        return Some(W.ReviewLaneBusy);
      }
      reviews := reviews[r := row.(job := R.ManualRetry(row.job))];
      return None;
    }

    /** claimNextReview: the number of the claimed review, if one was claimed. */
    method ClaimNextReview(clock: int, leaseMs: int) returns (claimed: Option<nat>)
      requires Valid()
      modifies this
      ensures Valid() && View() == W.ClaimNextReview(old(View()), clock, leaseMs)
      ensures claimed.Some? ==> claimed.value < |reviews| && reviews[claimed.value].job.state == R.Running
                                && reviews[claimed.value].job.claimToken == Some(old(nextToken))
      ensures claimed.None? ==> nextToken == old(nextToken)
      ensures E.Claims(old(View()), View(), claimed, clock, leaseMs)
    {
      ghost var was := View();
      hide I.Inv, E.Claims;
      ClaimFacts(was, clock, leaseMs);
      S.ClaimKeeps(View(), clock, leaseMs);
      S.FocusKeeps(View());
      var selected := W.LaneOwner(reviews, 0);
      if selected < |reviews| && (!W.CheckoutActive(checkouts, reviews[selected]) || !W.ActiveReview(reviews[selected].job.state)) {
        reviews := reviews[selected := reviews[selected].(job := reviews[selected].job.(laneOwner := false))];
        selected := |reviews|;
      }
      if selected == |reviews| {
        selected := W.NextQueued(reviews, checkouts, 0);
        if selected < |reviews| {
          reviews := reviews[selected := reviews[selected].(job := reviews[selected].job.(laneOwner := true))];
        }
      }
      assert View() == W.Focus(was).0;
      assert W.Focus(was).1 == if selected == |reviews| then None else Some(selected);
      hide W.Focus, R.Claim, W.MustWait;
      if selected == |reviews| || W.MustWait(reviews[selected].job, clock) {
        return None;
      }
      reviews := reviews[selected := reviews[selected].(job := R.Claim(reviews[selected].job, nextToken, clock, leaseMs))];
      nextToken := nextToken + 1;
      return Some(selected);
    }

    method AcceptChanges(actor: nat, c: nat, fence: nat, q: nat, revision: nat, rhash: W.Hash, hash: W.Hash)
      returns (error: Option<W.Error>)
      requires Valid()
      modifies this
      ensures Valid()
      ensures W.Outcome(View(), error) == W.AcceptChanges(old(View()), actor, c, fence, q, revision, rhash, hash)
    {
      hide I.Inv;
      S.AcceptKeeps(View(), actor, c, fence, q, revision, rhash, hash);
      RowsExist(View());
      if !W.HoldsCheckout(checkouts, c, actor, fence) {
        return Some(W.StaleCheckout);
      }
      var checkout := checkouts[c];
      var guard := W.PublicationGuard(publications, checkout.situation);
      if guard.Some? {
        return guard;
      }
      var head := W.Latest(drafts[checkout.draft].revisions);
      if head.None? || head.value.id != revision || head.value.hash != rhash {
        return Some(W.StaleRevision);
      }
      if q >= |proposals| || proposals[q].review >= |reviews| || reviews[proposals[q].review].situation != checkout.situation {
        return Some(W.ProposalNotFound);
      }
      if proposals[q].superseded {
        return Some(W.SupersededProposal);
      }
      if proposals[q].currentRevision != revision || proposals[q].currentHash != rhash {
        return Some(W.StaleProposal);
      }
      var created := CreateRevision(checkout.draft, hash, Some((revision, rhash)), Some(q));
      if created.None? {
        return Some(W.StaleRevision);
      }
      proposals := proposals[q := proposals[q].(currentRevision := created.value.id, currentHash := created.value.hash)];
      return None;
    }

    method RequestPublication(preflight: W.Preflight, receipt: nat, actor: nat, c: nat, fence: nat, revision: nat, hash: W.Hash)
      returns (error: Option<W.Error>)
      requires Valid()
      modifies this
      ensures Valid()
      ensures W.Outcome(View(), error) == W.RequestPublication(old(View()), preflight, receipt, actor, c, fence, revision, hash)
      ensures error.Some? || W.Requested(old(publications), receipt) ==> View() == old(View())
      ensures error.None? && !W.Requested(old(publications), receipt) ==>
        && c < |checkouts| && View() == old(View()).(publications := publications)
        && publications == old(publications) + [
             W.Publication(receipt, checkouts[c].situation, c, fence, checkouts[c].draft, revision, hash, P.Requested)]
    {
      hide I.Inv;
      S.RequestKeeps(View(), preflight, receipt, actor, c, fence, revision, hash);
      RowsExist(View());
      if W.RecoveryPending(publications) {
        return Some(W.PublicationRecoveryRequired);
      }
      if !preflight.found {
        return Some(W.PreflightRequired);
      }
      if !preflight.matches {
        return Some(W.StalePreflightReceipt);
      }
      if W.Requested(publications, receipt) {
        return None;
      }
      if preflight.early.Some? {
        return preflight.early;
      }
      if !W.HoldsCheckout(checkouts, c, actor, fence) {
        return Some(W.StalePreflightReceipt);
      }
      var checkout := checkouts[c];
      var draft := drafts[checkout.draft];
      var target := W.FindRevision(draft.revisions, revision);
      if target.None? || target.value.hash != hash
         || draft.currentNumber != target.value.number || draft.currentHash != Some(hash) {
        return Some(W.StalePreflightReceipt);
      }
      var guard := W.PublicationGuard(publications, checkout.situation);
      if guard.Some? {
        return guard;
      }
      if W.ReviewUnderway(reviews, checkout.situation) {
        return Some(W.ReviewActive);
      }
      if preflight.late.Some? {
        return preflight.late;
      }
      publications := publications + [
        W.Publication(receipt, checkout.situation, c, fence, checkout.draft, revision, hash, P.Requested)];
      return None;
    }

    /** finalizeSuccess: in a legal run the fence never stops it. */
    method FinalizeSuccess(p: nat) returns (done: bool)
      requires Valid() && p < |publications|
      modifies this
      ensures Valid() && View() == W.FinalizeSuccess(old(View()), p)
      ensures done <==> old(publications)[p].state == P.Verifying
      ensures done ==> publications[p].state == P.Succeeded
    {
      S.FinalizeKeeps(View(), p);
      S.PinnedRows(View());
      NeverFenced(View(), p);
      hide I.Inv;
      var job := publications[p];
      if job.state != P.Verifying || checkouts[job.checkout].released
         || checkouts[job.checkout].fence != job.checkoutFence || fences[job.situation] != job.checkoutFence {
        return false;
      }
      checkouts := checkouts[job.checkout := checkouts[job.checkout].(released := true)];
      if drafts[job.draft].active {
        drafts := drafts[job.draft := drafts[job.draft].(active := false)];
      }
      publications := publications[p := job.(state := P.Succeeded)];
      return true;
    }
  }

  lemma ClaimFacts(s: W.State, now: int, leaseMs: int)
    requires I.Inv(s)
    ensures var focus := W.Focus(s);
      && (focus.1.Some? ==> focus.1.value < |focus.0.reviews|)
      && E.Claims(s, W.ClaimNextReview(s, now, leaseMs),
           if focus.1.None? || W.MustWait(focus.0.reviews[focus.1.value].job, now) then None else focus.1, now, leaseMs)
  {
    S.OwnerIsSelectable(s);
    E.OneOwner(s);
    hide I.Inv;
    E.ClaimsExactly(s, now, leaseMs);
  }

  lemma RowsExist(s: W.State)
    requires I.Inv(s)
    ensures forall c :: 0 <= c < |s.checkouts| ==> s.checkouts[c].draft < |s.drafts|
  {
    forall c | 0 <= c < |s.checkouts|
      ensures I.CheckoutOk(s.checkouts[c], s.fences, s.drafts)
    {
    }
  }

  lemma NeverFenced(s: W.State, p: nat)
    requires I.Inv(s) && p < |s.publications|
    ensures W.Pinning(s.publications[p].state) ==> W.FenceHolds(s, p) && s.drafts[s.publications[p].draft].active
  {
    if W.Pinning(s.publications[p].state) {
      assert I.Pinned(s.publications[p], s.fences, s.drafts, s.checkouts, s.reviews);
      assert I.CheckoutOk(s.checkouts[s.publications[p].checkout], s.fences, s.drafts);
    }
  }
}
