/** The publisher's transactions as they run: rows, pointer and local flags are
    updated in place, and an authority test that fails leaves early.  Each method
    is tied to the protocol function that specifies it, and so keeps the
    protocol's invariant. */
module PublisherStore {
  import opened Common
  import P = PublicationProtocol
  import I = PublicationInvariant
  import S = PublicationSteps
  import R = PublicationRows
  import T = PublicationTheorems

  lemma OnlyInFlight(s: P.State, jsNow: int, j: nat)
    requires I.Inv(s) && R.Exclusive(s.jobs) && R.NoLeaseInGap(s, jsNow)
    requires j < |P.Claim(s, jsNow).jobs| && P.InFlight(P.Claim(s, jsNow).jobs[j].state)
    ensures var jobs := P.Claim(s, jsNow).jobs; forall i :: 0 <= i < |jobs| && P.InFlight(jobs[i].state) ==> i == j
  {
    RowsTidy(s);
    R.ClaimExcludes(s, jsNow);
    hide I.Inv, R.AllTidy, R.NoLeaseInGap, P.Claim;
  }

  lemma RowsTidy(s: P.State)
    requires I.Inv(s)
    ensures R.AllTidy(s)
  {
    forall j | 0 <= j < |s.jobs|
      ensures R.Tidy(s.jobs[j])
    {
      I.JobIsOk(s, j);
    }
  }

  lemma OwnerRuns(s: P.State)
    requires I.Inv(s) && s.leadership.tx.Some?
    ensures s.leadership.tx.value.owner in s.workers
  {
  }

  /** A recovery that ends has nothing of its own left between the pointer and the last success. */
  lemma ConcludedIsNotOfficial(s: P.State, r: nat)
    requires I.Inv(s) && P.Enabled(s, P.FinishRecovery(r)) && s.jobs[s.reconcilers[r].job].state == P.RecoveryRequired
    ensures var j := s.reconcilers[r].job; j !in s.exposed && !P.OnCandidate(s, j)
    ensures T.RecordsSuccesses(s)
    ensures R.AtMostOneInFlight(s) ==> s.leadership.pointer.release == P.OfficialRelease(s.jobs, s.succeeded, s.initial)
    ensures P.OfficialRelease(P.ConcludeRecovery(s, r).jobs, s.succeeded, s.initial) == P.OfficialRelease(s.jobs, s.succeeded, s.initial)
  {
    var j := s.reconcilers[r].job;
    assert I.ReconcilerOk(s.reconcilers[r], s.jobs[j], s.workers, s.leadership, s.exposed, s.now, s.nextToken);
    if P.OnCandidate(s, j) {
      I.OfficialIsOnTop(s, j);
    }
    if R.AtMostOneInFlight(s) && s.exposed != [] {
      I.ExposedLink(s, 0);
    }
    hide I.JobsOk, I.TxOk, I.WorkersOk, I.ReconcilersOk;
  }

  lemma RestoredParent(s: P.State, t: P.Token)
    requires I.Inv(s) && I.Restores(s, t)
    ensures var r := P.RestoreCas(s, t); var j := s.workers[t].job;
      && r.jobs == s.jobs && r.jobs[j].state == P.RecoveryRequired && T.RecordsSuccesses(r)
      && (R.AtMostOneInFlight(s) ==> r.leadership.pointer.release == P.OfficialRelease(r.jobs, r.succeeded, r.initial))
  {
    hide I.Inv, R.AtMostOneInFlight;
    I.RestoresInRecovery(s, t);
    T.RestoredIsOfficial(s, s.workers[t].job);
  }

  lemma VerifiedIsOfficial(s: P.State, t: P.Token)
    requires I.Inv(s) && P.At(s, t, P.Finalizing)
    ensures P.Live(s, t) ==> s.jobs[s.workers[t].job].state == P.Verifying && P.OnCandidate(s, s.workers[t].job)
  {
    hide I.Inv;
    S.Facts(s, t);
  }

  lemma FailedIsNotOfficial(s: P.State, j: nat)
    requires I.Inv(s) && j < |s.jobs| && s.jobs[j].state == P.Failed
    ensures s.leadership.pointer.release != s.jobs[j].release
  {
    assert I.JobOk(j, s.jobs[j], s.leadership, s.now);
  }

  class Publisher {
    // Studio
    var jobs: seq<P.Job>
    var succeeded: seq<nat>
    ghost var exposed: seq<nat>
    var nextToken: P.Token
    var now: int
    // Leadership
    var pointer: P.Pointer
    var releases: set<P.Release>
    var tx: Option<P.PromotionTx>
    var restored: set<nat>
    // the local variables of the running processes
    var workers: map<P.Token, P.Worker>
    var reconcilers: map<nat, P.Reconciler>
    const initial: P.Release

    ghost function View(): P.State
      reads this
    {
      P.State(jobs, workers, reconcilers, P.Leadership(pointer, releases, tx, restored), succeeded, exposed, initial, now, nextToken)
    }

    ghost predicate Valid()
      reads this
    {
      I.Inv(View())
    }

    constructor (initial: P.Release, generation: nat, now: int)
      ensures Valid() && P.Init(View())
      ensures View().leadership.pointer == P.Pointer(initial, generation) && this.now == now
    {
      this.initial := initial;
      this.now := now;
      jobs, succeeded, exposed, nextToken := [], [], [], 0;
      pointer, releases, tx, restored := P.Pointer(initial, generation), {initial}, None, {};
      workers, reconcilers := map[], map[];
      new;
      I.InitKeeps(View());
    }

    /** claimPublicationJob */
    method ClaimPublicationJob(jsNow: int) returns (claim: Option<(nat, P.Token)>)
      requires Valid()
      modifies this
      ensures Valid() && View() == P.Claim(old(View()), jsNow)
      ensures claim.Some? ==> claim.value.1 == old(nextToken) && claim.value.0 < |jobs|
                              && jobs[claim.value.0].claimToken == Some(claim.value.1)
      ensures claim.Some? && old(R.Exclusive(jobs) && R.NoLeaseInGap(View(), jsNow)) ==>
        forall j :: 0 <= j < |jobs| && P.InFlight(jobs[j].state) ==> j == claim.value.0
      ensures claim.None? ==> View() == old(View())
    {
      hide I.Inv;
      ghost var was := View();
      S.ClaimKeeps(View(), jsNow);
      var choice := P.FirstEligible(jobs, now, 0);
      if P.ClaimBlocked(jobs, jsNow) || choice.None? {
        return None;
      }
      var j, token := choice.value, nextToken;
      var row := jobs[j];
      if row.state == P.Requested {
        row := row.(state := P.Assembling);
      }
      row := row.(claimToken := Some(token), lease := Some(now + P.LEASE_MS));
      jobs := jobs[j := row];
      workers := workers[token := P.NewWorker(j, jsNow)];
      nextToken := token + 1;
      if R.Exclusive(was.jobs) && R.NoLeaseInGap(was, jsNow) {
        OnlyInFlight(was, jsNow, j);
      }
      return Some((j, token));
    }

    /** renewPublicationLease: the claim may be revived after its lease ran out. */
    method RenewPublicationLease(t: P.Token, clock: int) returns (renewed: bool)
      requires Valid() && P.StepEnabled(View(), t, P.RenewLease(clock))
      modifies this
      ensures Valid() && View() == P.Renew(old(View()), t, clock)
      ensures renewed <==> old(P.Live(View(), t))
    {
      hide I.Inv;
      S.RenewKeeps(View(), t, clock);
      S.Facts(View(), t);
      var j := workers[t].job;
      workers := workers[t := workers[t].(clock := clock)];
      if jobs[j].claimToken != Some(t) || !P.InFlight(jobs[j].state) {
        return false;
      }
      jobs := jobs[j := jobs[j].(lease := Some(clock + P.LEASE_MS))];
      return true;
    }

    /** insertAndPromote, up to and including the promotion statement. */
    method InsertAndPromote(t: P.Token, validated: bool) returns (pointerChanged: bool)
      requires Valid() && P.StepEnabled(View(), t, P.InsertAndPromote(validated))
      modifies this
      ensures Valid() && View() == P.Insert(old(View()), t, validated)
      ensures pointerChanged <==> workers[t].pc == P.PointerChanged
    {
      hide I.Inv;
      S.InsertKeeps(View(), t, validated);
      var w := workers[t];
      var job := jobs[w.job];
      pointerChanged := false;
      if job.release in releases {
        if pointer.release == job.release {
          w := w.(promotionStateKnown := true, promoted := true, pc := P.Checking);
          workers := workers[t := w];
          return;
        }
        if !validated {
          w := w.(promotionStateKnown := true, pc := P.PointerChanged);
          workers := workers[t := w];
          return true;
        }
      }
      if pointer.release != job.parent || pointer.generation != job.expectedGeneration {
        pointerChanged := true;
        w := w.(promotionStateKnown := true, pc := P.PointerChanged);
      } else if job.claimToken != Some(t) || !P.Owned(job.state) {
        w := w.(pc := P.InnerCatch);
      } else {
        tx := Some(P.PromotionTx(t, w.job, P.Open));
        w := w.(pc := P.PromotionOpen);
      }
      workers := workers[t := w];
    }

    /** The COMMIT on the wire is decided; a commit is the compare-and-swap. */
    method DecideCommit(ok: bool)
      requires Valid() && P.Enabled(View(), P.CommitDecision(ok)) && (ok ==> P.CommitWithinLease(View()))
      modifies this
      ensures Valid() && View() == P.DecideCommit(old(View()), ok)
      ensures pointer == if ok then P.Pointer(jobs[old(tx).value.job].release, old(pointer).generation + 1) else old(pointer)
    {
      hide I.Inv;
      I.DecisionKeeps(View(), ok);
      OwnerRuns(View());
      var sent := tx.value;
      tx := None;
      if ok {
        var release := jobs[sent.job].release;
        releases := releases + {release};
        pointer := P.Pointer(release, pointer.generation + 1);
        exposed := [sent.job] + exposed;
      }
      if workers[sent.owner].pc == P.Awaiting {
        workers := workers[sent.owner := workers[sent.owner].(reply := Some(ok))];
      }
    }

    /** reconcileAmbiguousPromotion, as the inner catch of the promotion uses it. */
    method ReconcileAmbiguousPromotion(t: P.Token) returns (promoted: bool)
      requires Valid() && P.StepEnabled(View(), t, P.ReconcileAmbiguous) && P.StepGranted(View(), t, P.ReconcileAmbiguous)
      modifies this
      ensures Valid() && View() == P.ReconcileCommit(old(View()), t)
      ensures promoted <==> pointer.release == jobs[workers[t].job].release
    {
      hide I.Inv;
      S.ReconcileCommitKeeps(View(), t);
      var w := workers[t];
      promoted := pointer.release == jobs[w.job].release;
      w := w.(promotionStateKnown := true);
      if promoted {
        w := w.(promoted := true, pc := P.Checking);
      } else {
        w := w.(pc := P.Catching);
      }
      workers := workers[t := w];
    }

    /** finalizeSuccess: every fence is tested before the first write. */
    method FinalizeSuccess(t: P.Token, fenced: bool) returns (done: bool)
      requires Valid() && P.StepEnabled(View(), t, P.FinalizeSuccess(fenced))
      modifies this
      ensures Valid() && View() == P.Finalize(old(View()), t, fenced)
      ensures done <==> !fenced && old(P.Live(View(), t))
      ensures done ==> pointer.release == jobs[workers[t].job].release && jobs[workers[t].job].state == P.Succeeded
      ensures !done ==> jobs == old(jobs) && succeeded == old(succeeded)
    {
      hide I.Inv;
      S.FinalizeKeeps(View(), t, fenced);
      VerifiedIsOfficial(View(), t);
      var j := workers[t].job;
      var row := jobs[j];
      if row.state != P.Verifying || row.claimToken != Some(t) || fenced {
        workers := workers[t := workers[t].(pc := P.CatchVerified)];
        return false;
      }
      row := row.(state := P.Succeeded);
      row := row.(claimToken := None, lease := None);
      jobs := jobs[j := row];
      succeeded, exposed := succeeded + [j], [];
      workers := workers[t := workers[t].(pc := P.Exited)];
      return true;
    }

    /** The three endings of the catch block: beginAutomaticRestoration, or
        terminalizePublicationOutcome into RECOVERY_REQUIRED or FAILED. */
    method EndFailedAttempt(t: P.Token) returns (restoring: bool)
      requires Valid() && P.StepEnabled(View(), t, P.CatchBranch)
      modifies this
      ensures Valid() && View() == P.Decide(old(View()), t)
      ensures var j := workers[t].job; jobs[j].state == P.Failed ==> pointer.release != jobs[j].release
    {
      hide I.Inv;
      S.DecideKeeps(View(), t);
      var w := workers[t];
      var row := jobs[w.job];
      restoring := w.promoted && row.claimToken == Some(t) && P.PointerPhase(row.state);
      if restoring {
        jobs := jobs[w.job := row.(state := P.RecoveryRequired)];
      } else if !w.promoted && row.claimToken == Some(t) && (row.state == P.Requested || P.Owned(row.state)) {
        var outcome := P.Failed;
        if w.promotionAttempted && !w.promotionStateKnown {
          outcome := P.RecoveryRequired;
        }
        jobs := jobs[w.job := row.(state := outcome, claimToken := None, lease := None)];
      }
      workers := workers[t := w.(pc := if restoring then P.RestoreReading else P.Exited)];
      if jobs[w.job].state == P.Failed {
        FailedIsNotOfficial(View(), w.job);
      }
    }

    /** restorePrevious: the compare-and-swap back to the parent release. */
    method RestorePrevious(t: P.Token) returns (moved: bool)
      requires Valid() && P.StepEnabled(View(), t, P.RestoreRelease)
      modifies this
      ensures Valid() && View() == P.RestoreCas(old(View()), t)
      ensures moved ==> var j := workers[t].job; pointer.release == jobs[j].parent && jobs[j].state == P.RecoveryRequired
      ensures moved && old(R.AtMostOneInFlight(View())) ==> pointer.release == P.OfficialRelease(jobs, succeeded, initial)
      ensures !moved ==> pointer == old(pointer)
    {
      ghost var was := View();
      hide I.Inv;
      I.RestoreKeeps(View(), t);
      var w := workers[t];
      var job := jobs[w.job];
      moved := pointer.release == job.release && pointer.generation == w.restoreGeneration;
      if moved {
        RestoredParent(was, t);
        pointer := P.Pointer(job.parent, pointer.generation + 1);
        restored := restored + {w.job};
        exposed := if exposed == [] then [] else exposed[1..];
        workers := workers[t := w.(pc := P.RestoreIssued)];
      } else {
        workers := workers[t := w.(pc := P.RestoreFailed)];
      }
    }

    /** The second half of reconcilePublicationRecovery: claim, then close. */
    method ClaimRecovery(r: nat, jsNow: int) returns (claimed: bool)
      requires Valid() && P.Enabled(View(), P.TakeRecovery(r, jsNow))
      modifies this
      ensures Valid() && View() == P.ClaimRecovery(old(View()), r, jsNow)
    {
      hide I.Inv;
      S.TakeRecoveryKeeps(View(), r, jsNow);
      var j := reconcilers[r].job;
      var row := jobs[j];
      if row.state != P.RecoveryRequired || (row.claimToken.Some? && row.lease.Some? && row.lease.value >= jsNow) {
        reconcilers := reconcilers[r := P.Finished];
        return false;
      }
      var token := nextToken;
      nextToken := token + 1;
      jobs := jobs[j := row.(claimToken := Some(token), lease := Some(jsNow + P.LEASE_MS))];
      reconcilers := reconcilers[r := P.Holding(j, token)];
      return true;
    }

    method ConcludeRecovery(r: nat) returns (changed: bool)
      requires Valid() && P.Enabled(View(), P.FinishRecovery(r))
      modifies this
      ensures Valid() && View() == P.ConcludeRecovery(old(View()), r)
      ensures var j := old(reconcilers[r]).job;
        changed ==> jobs[j].state == P.Restored && j !in exposed && pointer.release != jobs[j].release
      ensures changed && old(R.AtMostOneInFlight(View())) ==> pointer.release == P.OfficialRelease(jobs, succeeded, initial)
    {
      hide I.Inv;
      S.FinishRecoveryKeeps(View(), r);
      ghost var was := View();
      var holder := reconcilers[r];
      var row := jobs[holder.job];
      reconcilers := reconcilers[r := P.Finished];
      if row.state != P.RecoveryRequired || row.claimToken != Some(holder.token) {
        return false;
      }
      ConcludedIsNotOfficial(was, r);
      jobs := jobs[holder.job := row.(state := P.Restored, claimToken := None, lease := None)];
      return true;
    }
  }
}
