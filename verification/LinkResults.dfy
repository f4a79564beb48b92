/**
 What the answers of a call say about the tables and the sheet it has read: which row a success stands for, when the
 default commission is applied, and why a call gave up.
 */
module LinkResults {
  import opened Basics
  import opened LinkPool
  import opened LinkProtocol
  import opened LinkDelivery

  // ----- The row behind a success -----

  /** The worker's candidates are unused rows, and it commits one of them under the campaign that the row names. */
  predicate UsesRows(me: Worker) {
    && (forall row | row in me.candidates :: Unused(me.job.family, row))
    && (me.pc.AtCommit? ==>
          me.pc.row in me.candidates
              && NamesTarget(me.job.family, me.pc.row, me.pc.target.campaign, me.pc.target.affiliateId))
  }

  ghost predicate AllUseRows(s: State) {
    forall w | w in s.workers :: UsesRows(s.workers[w])
  }

  lemma StepKeepsUsesRows(s: State, a: Action)
    requires Enabled(s, a) && !a.Tick? && (a.w in s.workers ==> UsesRows(s.workers[a.w]))
    ensures UsesRows(WorkerAfter(s, a))
  {
    if a.ReadRows? && a.rows.Some? {
      var family := s.workers[a.w].job.family;
      forall row | row in Candidates(family, a.rows.value)
        ensures Unused(family, row)
      {
        CandidatesMean(family, a.rows.value, row);
      }
    }
  }

  lemma {:induction false} AllUseRowsAlways(states: seq<State>, acts: seq<Action>, i: nat)
    requires IsRun(states, acts) && i < |states|
    ensures AllUseRows(states[i])
  {
    if i > 0 {
      assert StepAt(states, acts, i - 1);
      AllUseRowsAlways(states, acts, i - 1);
      if !acts[i - 1].Tick? {
        StepKeepsUsesRows(states[i - 1], acts[i - 1]);
      }
    }
  }

  /** A worker's candidates come from the rows it was given. */
  lemma {:induction false} CandidatesWereRead(states: seq<State>, acts: seq<Action>, i: nat, w: nat, row: Row)
    returns (k: nat)
    requires IsRun(states, acts) && i < |states| && w in states[i].workers && row in states[i].workers[w].candidates
    ensures k < i && acts[k].ReadRows? && acts[k].w == w && acts[k].rows.Some? && row in acts[k].rows.value
  {
    assert i > 0 && StepAt(states, acts, i - 1);
    var s, a := states[i - 1], acts[i - 1];
    if w in s.workers && row in s.workers[w].candidates {
      k := CandidatesWereRead(states, acts, i - 1, w, row);
    } else {
      k := i - 1;
      NewCandidates(s, a, w, row);
      CandidatesMean(s.workers[w].job.family, a.rows.value, row);
    }
  }

  lemma NewCandidates(s: State, a: Action, w: nat, row: Row)
    requires Enabled(s, a) && w in Apply(s, a).workers && row in Apply(s, a).workers[w].candidates
    requires !(w in s.workers && row in s.workers[w].candidates)
    ensures a.ReadRows? && a.w == w && a.rows.Some? && w in s.workers
        && row in Candidates(s.workers[w].job.family, a.rows.value)
  {
  }

  /**
   Every success stands for an unused row that the call had been given, and answers with its link, number and campaign.
   */
  lemma RowBehindSuccess(states: seq<State>, acts: seq<Action>, i: nat, w: nat, r: Result) returns (k: nat, row: Row)
    requires IsRun(states, acts) && i < |states| && w in states[i].workers
    requires ResultOf(states[i].workers[w].pc) == Some(r) && r.Assigned?
    ensures k < i && acts[k].ReadRows? && acts[k].w == w && acts[k].rows.Some? && row in acts[k].rows.value
    ensures Unused(states[i].workers[w].job.family, row)
    ensures NamesTarget(states[i].workers[w].job.family, row, r.campaign, r.affiliateId)
    ensures r.link == row.link && r.rowIndex == row.rowIndex
  {
    var n := SuccessComesFromCommit(states, acts, i, w, r);
    row := states[n].workers[w].pc.row;
    AllUseRowsAlways(states, acts, n);
    k := CandidatesWereRead(states, acts, n, w, row);
  }

  // ----- The default commission -----

  /**
   The default is chosen exactly where the check found no link with both rates, so a stored commission is not replaced.
   */
  lemma {:induction false} DefaultOnlyWithoutRates(states: seq<State>, acts: seq<Action>, i: nat, w: nat)
    returns (k: nat)
    requires IsRun(states, acts) && i < |states| && w in states[i].workers
    requires states[i].workers[w].job.family.Betano? && PastCommission(states[i].workers[w].pc)
    ensures k < i && acts[k] == ReadCommission(w)
    ensures states[i].workers[w].applyDefault <==>
        !HasBothRates(states[k].db, states[i].workers[w].job.user, states[i].workers[w].job.house)
    ensures states[i].workers[w].applyDefault ==> states[i].workers[w].job.default.Some?
  {
    assert i > 0 && StepAt(states, acts, i - 1);
    var s, a := states[i - 1], acts[i - 1];
    if a == ReadCommission(w) {
      k := i - 1;
      HasCommissionMeans(s.db, s.workers[w].job.user, s.workers[w].job.house);
    } else {
      StaysPastCommission(s, a, w);
      k := DefaultOnlyWithoutRates(states, acts, i - 1, w);
    }
  }

  lemma StaysPastCommission(s: State, a: Action, w: nat)
    requires Enabled(s, a) && w in Apply(s, a).workers && Apply(s, a).workers[w].job.family.Betano?
    requires PastCommission(Apply(s, a).workers[w].pc) && a != ReadCommission(w)
    ensures w in s.workers && PastCommission(s.workers[w].pc) && s.workers[w].job == Apply(s, a).workers[w].job
    ensures s.workers[w].applyDefault == Apply(s, a).workers[w].applyDefault
  {
  }

  // ----- Why a call gave up -----

  /** What the step that ends a call with a reason has seen. */
  ghost predicate Explains(s: State, a: Action, me: Worker, reason: Reason) {
    var request := me.job.request;
    match reason
    case RequestNotFound => a.ReadRequest? && request !in s.db.requests
    case AlreadyFulfilled => a.ReadRequest? && request in s.db.requests && s.db.requests[request].status != Pending
    case CommissionNotSet => a.ReadCommission? && me.job.default.None? && !HasBothRates(s.db, me.job.user, me.job.house)
    case SheetReadFailed => a.ReadRows? && a.rows.None?
    case PoolEmpty => a.ReadRows? && a.rows.Some? && forall row | row in a.rows.value :: !Unused(me.job.family, row)
    case AllConflicts =>
      (a.ReadUser? && me.job.user !in s.db.emails) || (a.CheckConflict? && me.next >= |me.candidates|)
    case LockBusy => false
  }

  /** Every refusal is given for its reason, at the step that finds it. */
  lemma RefusalMeans(s: State, a: Action, reason: Reason)
    requires Enabled(s, a) && !a.Tick? && a.w in s.workers && !s.workers[a.w].pc.AtRelease?
    requires WorkerAfter(s, a).pc == AtRelease(NotAssigned(reason))
    ensures Explains(s, a, s.workers[a.w], reason)
  {
    var me := s.workers[a.w];
    HasCommissionMeans(s.db, me.job.user, me.job.house);
    if a.ReadRows? && a.rows.Some? {
      forall row | row in a.rows.value
        ensures !Unused(me.job.family, row)
      {
        CandidatesMean(me.job.family, a.rows.value, row);
      }
    }
  }

  /**
   A candidate is passed over only if its link is malformed or its campaign is active on another link of the family.
   */
  lemma SkippedMeans(s: State, a: Action)
    requires Enabled(s, a) && a.CheckConflict? && s.workers[a.w].next < |s.workers[a.w].candidates|
    ensures var me, row := s.workers[a.w], s.workers[a.w].candidates[s.workers[a.w].next];
            var clash := exists i, campaign, affiliateId | 0 <= i < |s.db.links|
                && NamesTarget(me.job.family, row, campaign, affiliateId) ::
              s.db.links[i].active && s.db.links[i].campaign == campaign && me.existing != Some(i);
            && (WorkerAfter(s, a).pc == AtConflict <==> (me.job.family == Betano && row.ids.None?) || clash)
            && (WorkerAfter(s, a).pc != AtConflict ==>
                WorkerAfter(s, a).pc.AtCommit? && WorkerAfter(s, a).pc.row == row)
  {
    var me, row := s.workers[a.w], s.workers[a.w].candidates[s.workers[a.w].next];
    var target := TargetOf(me.job.family, row);
    if target.Some? {
      assert NamesTarget(me.job.family, row, target.value.campaign, target.value.affiliateId);
    }
  }

  // ----- The lock -----

  /** The attempts at the lock that worker `w` has made in the first `i` steps. */
  function Attempts(acts: seq<Action>, i: nat, w: nat): nat
    requires i <= |acts|
  {
    if i == 0 then 0 else Attempts(acts, i - 1, w) + if acts[i - 1].TryLock? && acts[i - 1].w == w then 1 else 0
  }

  /** How long the waits before attempt `n` are together. */
  function Waits(n: nat): nat {
    match n
    case 0 => 0
    case 1 => 200
    case 2 => 600
    case 3 => 1400
    case 4 => 3000
    case _ => 6200
  }

  ghost predicate Trying(s: State, acts: seq<Action>, i: nat, w: nat, began: nat)
    requires i <= |acts|
  {
    w in s.workers && began <= s.now &&
    match s.workers[w].pc
    case AwaitLock(attempt, wakeAt) => attempt <= 5 && Attempts(acts, i, w) == attempt
        && began + Waits(attempt) <= wakeAt
    case Finished(result) => result == NotAssigned(LockBusy) ==> Attempts(acts, i, w) == 6 && began + 6200 <= s.now
    case AtRelease(result) => result != NotAssigned(LockBusy)
    case _ => true
  }

  lemma {:induction false} NoAttemptsBefore(states: seq<State>, acts: seq<Action>, i: nat, w: nat)
    requires IsRun(states, acts) && i < |states| && w !in states[i].workers
    ensures Attempts(acts, i, w) == 0
  {
    if i > 0 {
      assert StepAt(states, acts, i - 1);
      NoAttemptsBefore(states, acts, i - 1, w);
    }
  }

  lemma TryingStep(s: State, a: Action, acts: seq<Action>, i: nat, w: nat, began: nat)
    requires i < |acts| && acts[i] == a && Enabled(s, a) && Trying(s, acts, i, w, began)
    ensures Trying(Apply(s, a), acts, i + 1, w, began)
  {
  }

  /**
   A call gives up on the lock after exactly six attempts, with waits of 200, 400, 800, 1600 and 3200 ms in between.
   */
  lemma {:induction false} SixAttempts(states: seq<State>, acts: seq<Action>, i: nat, w: nat) returns (began: nat)
    requires IsRun(states, acts) && i < |states| && w in states[i].workers
    ensures Trying(states[i], acts, i, w, began)
  {
    assert i > 0 && StepAt(states, acts, i - 1);
    if w in states[i - 1].workers {
      began := SixAttempts(states, acts, i - 1, w);
      TryingStep(states[i - 1], acts[i - 1], acts, i - 1, w, began);
    } else {
      began := states[i].now;
      NoAttemptsBefore(states, acts, i - 1, w);
    }
  }

  /** A granted attempt writes the caller's token for thirty seconds, unless someone else's lock is still held. */
  lemma GrantMeans(s: State, a: Action)
    requires Enabled(s, a) && a.TryLock?
    ensures var held := s.lock.Some? && s.now < s.lock.value.expiresAt;
            Apply(s, a).lock ==
            if held || a.reply.Unreachable? then s.lock else Some(Lock(s.workers[a.w].token, a.w, s.now + 30_000))
  {
  }
}
