/**
 What the result of an assignment means in runs of the protocol: success is delivered, a request is
 fulfilled at most once, and a collision moves on.
 */
module LinkDelivery {
  import opened Basics
  import opened LinkPool
  import opened LinkProtocol

  // ----- What `assigned: true` means -----

  function ResultOf(pc: Pc): Option<Result> {
    if pc.AtRelease? || pc.Finished? then Some(pc.result) else None
  }

  /** After the commission check of a Betano call. */
  predicate PastCommission(pc: Pc) {
    pc.AtRows? || pc.AtUser? || pc.AtExisting? || pc.AtConflict? || pc.AtCommit?
  }

  /** Rates are available to every Betano worker that passed the commission check. */
  ghost predicate RatesAvailable(s: State) {
    forall w | w in s.workers && s.workers[w].job.family.Betano? && PastCommission(s.workers[w].pc) ::
      HasRates(s.db, s.workers[w])
  }

  lemma CommissionStep(s: State, a: Action)
    requires Enabled(s, a) && !a.Tick? && WorkerAfter(s, a).job.family.Betano? && PastCommission(WorkerAfter(s, a).pc)
    ensures a.w in s.workers && WorkerAfter(s, a).job == s.workers[a.w].job && !Commits(s, a)
    ensures (PastCommission(s.workers[a.w].pc) && WorkerAfter(s, a).applyDefault == s.workers[a.w].applyDefault) ||
            HasRates(s.db, WorkerAfter(s, a))
  {
  }

  /** The commission check of `me` still holds in `db`. */
  predicate HasRates(db: Db, me: Worker) {
    if me.applyDefault then me.job.default.Some? else HasCommission(db, me.job.user, me.job.house)
  }

  lemma StepKeepsHasRates(s: State, a: Action, me: Worker)
    requires Enabled(s, a) && HasRates(s.db, me)
    ensures HasRates(DbAfter(s, a), me)
  {
    if Commits(s, a) && !me.applyDefault {
      var other := s.workers[a.w];
      TransactKeepsCommission(s.db, other.job, other.applyDefault, other.pc.row, other.pc.target, a.hint, me.job.user,
                              me.job.house);
    }
  }

  lemma StepKeepsRatesAvailable(s: State, a: Action)
    requires RatesAvailable(s) && Enabled(s, a)
    ensures RatesAvailable(Apply(s, a))
  {
    var s' := Apply(s, a);
    forall w | w in s'.workers && s'.workers[w].job.family.Betano? && PastCommission(s'.workers[w].pc)
      ensures HasRates(s'.db, s'.workers[w])
    {
      if !a.Tick? {
        if a.w == w {
          CommissionStep(s, a);
        } else {
          StepKeepsHasRates(s, a, s.workers[w]);
        }
      }
    }
  }

  lemma {:induction false} RatesAvailableAlways(states: seq<State>, acts: seq<Action>, i: nat)
    requires IsRun(states, acts) && i < |states|
    ensures RatesAvailable(states[i])
  {
    if i > 0 {
      assert StepAt(states, acts, i - 1);
      RatesAvailableAlways(states, acts, i - 1);
      StepKeepsRatesAvailable(states[i - 1], acts[i - 1]);
    }
  }

  /** Worker `w` commits at step `k` and so obtains result `r`. */
  ghost predicate CommitsAt(states: seq<State>, acts: seq<Action>, k: nat, w: nat, r: Result) {
    && IsRun(states, acts) && StepAt(states, acts, k) && acts[k].CommitTx? && acts[k].w == w && acts[k].answered
    && r == Success(states[k].workers[w])
    && states[k + 1].workers[w].pc == AtRelease(r)
  }

  /** Every success stems from exactly this kind of step. */
  lemma {:induction false} SuccessComesFromCommit(states: seq<State>, acts: seq<Action>, i: nat, w: nat, r: Result)
    returns (k: nat)
    requires IsRun(states, acts) && i < |states| && w in states[i].workers
    requires ResultOf(states[i].workers[w].pc) == Some(r) && r.Assigned?
    ensures k < i && CommitsAt(states, acts, k, w, r)
    ensures states[k].workers[w].job == states[i].workers[w].job
  {
    assert i > 0 && StepAt(states, acts, i - 1);
    var s, a := states[i - 1], acts[i - 1];
    if w in s.workers && ResultOf(s.workers[w].pc) == Some(r) {
      StepKeepsJob(s, a, w);
      k := SuccessComesFromCommit(states, acts, i - 1, w, r);
    } else {
      k := i - 1;
      OnlyCommitSucceeds(s, a, r);
    }
  }

  lemma StepKeepsJob(s: State, a: Action, w: nat)
    requires Enabled(s, a) && w in s.workers
    ensures w in Apply(s, a).workers && Apply(s, a).workers[w].job == s.workers[w].job
  {
  }

  lemma OnlyCommitSucceeds(s: State, a: Action, r: Result)
    requires Enabled(s, a) && !a.Tick? && a.w in Apply(s, a).workers && r.Assigned?
    requires ResultOf(Apply(s, a).workers[a.w].pc) == Some(r)
    requires a.w in s.workers ==> ResultOf(s.workers[a.w].pc) != Some(r)
    ensures a.CommitTx? && a.answered && r == Success(s.workers[a.w]) && Apply(s, a).workers[a.w].pc == AtRelease(r)
    ensures Apply(s, a).workers[a.w].job == s.workers[a.w].job
  {
  }

  /**
   Whenever a Betano call reports success, at its commit the link it wrote carried the campaign and the request was
   fulfilled with the row's URL -- even if the lock had lapsed.  The link has both rates exactly if the default
   was applied or it had them before.
   */
  lemma SuccessIsDelivered(states: seq<State>, acts: seq<Action>, i: nat, w: nat, r: Result) returns (k: nat, id: nat)
    requires IsRun(states, acts) && i < |states|
    requires w in states[i].workers && states[i].workers[w].job.family.Betano?
    requires ResultOf(states[i].workers[w].pc) == Some(r) && r.Assigned?
    ensures k < i && CommitsAt(states, acts, k, w, r)
    ensures Delivered(states[k + 1].db, states[i].workers[w].job, id, r.campaign, r.link)
    ensures id == WrittenLink(states[k].db, states[i].workers[w].job, acts[k].hint)
    ensures RatesWritten(states[k].db, states[k + 1].db, states[i].workers[w].job, states[k].workers[w].applyDefault,
                         id)
    ensures IdsWritten(states[k].db, states[k + 1].db, states[i].workers[w].job, states[k].workers[w].pc.target,
                       r.link, id)
    ensures Rated(states[k + 1].db, id) <==> states[k].workers[w].applyDefault || Rated(states[k].db, id)
  {
    k := SuccessComesFromCommit(states, acts, i, w, r);
    RatesAvailableAlways(states, acts, k);
    var me := states[k].workers[w];
    id := WrittenLink(states[k].db, me.job, acts[k].hint);
    TransactDelivers(states[k].db, me.job, me.applyDefault, me.pc.row, me.pc.target, acts[k].hint);
  }

  /**
   If the database chooses link `hint` in the commit of worker `w` and success is reported, the link written has both
   rates.
   */
  ghost predicate SuccessRated(s: State, w: nat, hint: nat)
    requires w in s.workers && s.workers[w].pc.AtCommit?
  {
    var after := Apply(s, CommitTx(w, hint, true));
    after.workers[w].pc == AtRelease(Success(s.workers[w])) ==>
        Rated(after.db, WrittenLink(s.db, s.workers[w].job, hint))
  }

  /**
   In every run, a Betano call about to commit leaves rates behind for every choice of the database exactly when it
   applies the default, or its request is gone, or every link of the user it can choose has both rates.
   */
  lemma SuccessIsRatedExactlyWhen(states: seq<State>, acts: seq<Action>, k: nat, w: nat)
    requires IsRun(states, acts) && k < |states|
    requires w in states[k].workers && states[k].workers[w].job.family.Betano? && states[k].workers[w].pc.AtCommit?
    ensures var s, me := states[k], states[k].workers[w];
            (forall hint: nat :: SuccessRated(s, w, hint)) <==>
            me.applyDefault || me.job.request !in s.db.requests
                || AllRated(s.db, me.job.user, me.job.house, me.pc.target.campaign)
  {
    var s, me := states[k], states[k].workers[w];
    RatesAvailableAlways(states, acts, k);
    forall hint: nat
      ensures SuccessRated(s, w, hint) <==> RatedAfter(s.db, me.job, me.applyDefault, me.pc.row, me.pc.target, hint)
    {
    }
    if me.applyDefault {
      forall hint: nat
        ensures RatedAfter(s.db, me.job, true, me.pc.row, me.pc.target, hint)
      {
        if Transact(s.db, me.job, true, me.pc.row, me.pc.target, hint).Committed? {
          TransactDelivers(s.db, me.job, true, me.pc.row, me.pc.target, hint);
        }
      }
    } else if me.job.request in s.db.requests {
      RatedForEveryChoice(s.db, me.job, me.pc.row, me.pc.target);
    }
  }

  /** Every active link of the user in the house has both rates. */
  predicate UserRated(db: Db, user: string, house: House) {
    forall i: nat | i < |db.links| && ActiveFor(db, i, user, house) :: Rated(db, i)
  }

  lemma CommitKeepsUserRated(s: State, a: Action, user: string, house: House)
    requires Enabled(s, a) && Commits(s, a) && RatesAvailable(s) && UserRated(s.db, user, house)
    requires s.workers[a.w].job.family.Betano? || s.workers[a.w].job.default.Some?
    ensures UserRated(DbAfter(s, a), user, house)
  {
    var me, after := s.workers[a.w], DbAfter(s, a);
    TransactDelivers(s.db, me.job, me.applyDefault, me.pc.row, me.pc.target, a.hint);
    assert me.job.family.Betano? ==> PastCommission(me.pc) && HasRates(s.db, me);
    forall i: nat | i < |after.links| && ActiveFor(after, i, user, house)
      ensures Rated(after, i)
    {
      if i != WrittenLink(s.db, me.job, a.hint) || CommissionToWrite(me.job, me.applyDefault).None? {
        assert ActiveFor(s.db, i, user, house);
      }
    }
  }

  /** Nothing the calls do takes a rate away, so it is enough that the user's links had rates at some earlier state. */
  lemma {:induction false} UserRatedStays(states: seq<State>, acts: seq<Action>, i: nat, j: nat, user: string,
                                          house: House)
    requires IsRun(states, acts) && i <= j < |states| && UserRated(states[i].db, user, house)
    requires forall w | w in states[j].workers ::
        states[j].workers[w].job.family.Betano? || states[j].workers[w].job.default.Some?
    ensures UserRated(states[j].db, user, house)
    decreases j
  {
    if i < j {
      assert StepAt(states, acts, j - 1);
      var s, a := states[j - 1], acts[j - 1];
      forall w | w in s.workers
        ensures s.workers[w].job.family.Betano? || s.workers[w].job.default.Some?
      {
        StepKeepsJob(s, a, w);
      }
      UserRatedStays(states, acts, i, j - 1, user, house);
      RatesAvailableAlways(states, acts, j - 1);
      if Commits(s, a) {
        CommitKeepsUserRated(s, a, user, house);
      }
    }
  }

  /** With one active link per user and house, found with rates by the check, a reported success always has rates. */
  lemma OneLinkIsRated(states: seq<State>, acts: seq<Action>, k: nat, w: nat, hint: nat)
    requires IsRun(states, acts) && k < |states| && OneLinkPerUser(states[0].db)
    requires w in states[k].workers && states[k].workers[w].job.family.Betano? && states[k].workers[w].pc.AtCommit?
    ensures SuccessRated(states[k], w, hint)
  {
    var s, me := states[k], states[k].workers[w];
    OneLinkPerUserAlways(states, acts, k);
    RatesAvailableAlways(states, acts, k);
    SuccessIsRatedExactlyWhen(states, acts, k, w);
    if !me.applyDefault {
      var i: nat :| i < |s.db.links| && ActiveFor(s.db, i, me.job.user, me.job.house) && Rated(s.db, i);
      forall j: nat | ActiveFor(s.db, j, me.job.user, me.job.house)
        ensures j == i
      {
        if j < i || i < j {
          assert false;
        }
      }
      assert AllRated(s.db, me.job.user, me.job.house, me.pc.target.campaign);
    }
  }

  /** The commit of request `r` takes effect in this step. */
  ghost predicate Fulfils(s: State, a: Action, r: string) {
    && Enabled(s, a) && a.CommitTx?
    && s.workers[a.w].job.request == r && OutcomeOf(s, a.w, a.hint).Committed?
  }

  /**
   An Esportiva success wrote something exactly when its request was still pending at the commit; then the link carries
   the campaign, with the job's commission if it has one.
   */
  lemma EsportivaSuccess(states: seq<State>, acts: seq<Action>, i: nat, w: nat, r: Result) returns (k: nat)
    requires IsRun(states, acts) && i < |states|
    requires w in states[i].workers && states[i].workers[w].job.family.Esportiva?
    requires ResultOf(states[i].workers[w].pc) == Some(r) && r.Assigned?
    ensures k < i && CommitsAt(states, acts, k, w, r)
    ensures var request := states[i].workers[w].job.request;
            && (Fulfils(states[k], acts[k], request) <==>
                request in states[k].db.requests && states[k].db.requests[request].status.Pending?)
            && (!Fulfils(states[k], acts[k], request) ==> states[k + 1].db == states[k].db)
            && (Fulfils(states[k], acts[k], request) ==>
                  var job, id := states[i].workers[w].job,
                      WrittenLink(states[k].db, states[i].workers[w].job, acts[k].hint);
                  && Delivered(states[k + 1].db, job, id, r.campaign, r.link)
                  && RatesWritten(states[k].db, states[k + 1].db, job, states[k].workers[w].applyDefault, id))
  {
    k := SuccessComesFromCommit(states, acts, i, w, r);
    var me := states[k].workers[w];
    if OutcomeOf(states[k], w, acts[k].hint).Committed? {
      TransactDelivers(states[k].db, me.job, me.applyDefault, me.pc.row, me.pc.target, acts[k].hint);
    }
  }

  // ----- A request is fulfilled at most once -----

  lemma {:induction false} FulfilledStays(states: seq<State>, acts: seq<Action>, i: nat, j: nat, r: string)
    requires IsRun(states, acts) && i <= j < |states|
    requires r in states[i].db.requests && states[i].db.requests[r].status == Fulfilled
    ensures r in states[j].db.requests && states[j].db.requests[r].status == Fulfilled
    decreases j
  {
    if i < j {
      assert StepAt(states, acts, j - 1);
      FulfilledStays(states, acts, i, j - 1, r);
    }
  }

  /** Inside a timely section the request that was read as pending is still pending. */
  ghost predicate StillPending(s: State) {
    forall w | w in s.workers && PastRequest(s.workers[w].pc) ::
      s.workers[w].job.request in s.db.requests && s.db.requests[s.workers[w].job.request].status.Pending?
  }

  predicate PastRequest(pc: Pc) {
    pc.AtCommission? || PastCommission(pc)
  }

  lemma RequestStep(s: State, a: Action)
    requires Enabled(s, a) && !a.Tick? && PastRequest(WorkerAfter(s, a).pc)
    ensures a.w in s.workers && WorkerAfter(s, a).job == s.workers[a.w].job && !Commits(s, a)
    ensures PastRequest(s.workers[a.w].pc) ||
            (WorkerAfter(s, a).job.request in s.db.requests
             && s.db.requests[WorkerAfter(s, a).job.request].status.Pending?)
  {
  }

  lemma StepKeepsStillPending(s: State, a: Action)
    requires LockIsMine(s) && StillPending(s) && Enabled(s, a)
    ensures StillPending(Apply(s, a))
  {
    if !a.Tick? {
      if PastRequest(WorkerAfter(s, a).pc) {
        RequestStep(s, a);
      }
      forall w | w in s.workers && PastRequest(s.workers[w].pc) && w != a.w
        ensures !Commits(s, a)
      {
        assert InSection(s.workers[w].pc);
      }
    }
  }

  lemma {:induction false} StillPendingAlways(states: seq<State>, acts: seq<Action>, i: nat)
    requires TimelyRun(states, acts) && i < |states|
    ensures StillPending(states[i])
  {
    if i > 0 {
      assert StepAt(states, acts, i - 1);
      StillPendingAlways(states, acts, i - 1);
      LockIsMineAlways(states, acts, i - 1);
      StepKeepsStillPending(states[i - 1], acts[i - 1]);
    }
  }

  /** In a timely run a request is fulfilled once at most; Esportiva's re-check needs no timeliness. */
  lemma FulfilledAtMostOnce(states: seq<State>, acts: seq<Action>, i: nat, j: nat, r: string)
    requires IsRun(states, acts) && i < j < |acts| && Fulfils(states[i], acts[i], r)
    requires TimelyRun(states, acts) ||
             (acts[j].CommitTx? && acts[j].w in states[j].workers && states[j].workers[acts[j].w].job.family.Esportiva?)
    ensures !Fulfils(states[j], acts[j], r)
  {
    assert StepAt(states, acts, i) && StepAt(states, acts, j);
    FulfilledStays(states, acts, i + 1, j, r);
    if TimelyRun(states, acts) {
      StillPendingAlways(states, acts, j);
    }
  }

  /**
   Once a request is fulfilled, a later commit for it fulfils it again exactly if it is a Betano commit that meets no
   index collision: only Esportiva looks at the request in the transaction.
   */
  lemma FulfilledAgainExactlyWhen(states: seq<State>, acts: seq<Action>, i: nat, j: nat, r: string)
    requires IsRun(states, acts) && i < j < |acts| && Fulfils(states[i], acts[i], r)
    requires StepAt(states, acts, j) && acts[j].CommitTx? && states[j].workers[acts[j].w].job.request == r
    ensures var s, me := states[j], states[j].workers[acts[j].w];
            Fulfils(s, acts[j], r) <==>
            && me.job.family.Betano?
            && !Collides(s.db, me.job.house, me.pc.target.campaign,
                         FindLink(s.db, me.job.user, me.job.house, acts[j].hint))
  {
    assert StepAt(states, acts, i);
    FulfilledStays(states, acts, i + 1, j, r);
  }

  // ----- A collision moves on to a later candidate -----

  predicate LeftLoop(pc: Pc) {
    pc.AtRelease? || pc.Finished? || pc.Crashed?
  }

  /** Worker `w` has moved past candidate `n`, or has left the candidate loop. */
  predicate Beyond(s: State, w: nat, n: nat) {
    w in s.workers &&
    (LeftLoop(s.workers[w].pc) || ((s.workers[w].pc.AtConflict? || s.workers[w].pc.AtCommit?) && s.workers[w].next > n))
  }

  lemma StepKeepsBeyond(s: State, a: Action, w: nat, n: nat)
    requires Enabled(s, a) && Beyond(s, w, n)
    ensures Beyond(Apply(s, a), w, n)
    ensures LeftLoop(s.workers[w].pc) ==> LeftLoop(Apply(s, a).workers[w].pc)
  {
  }

  lemma {:induction false} BeyondStays(states: seq<State>, acts: seq<Action>, i: nat, j: nat, w: nat, n: nat)
    requires IsRun(states, acts) && i <= j < |states| && Beyond(states[i], w, n)
    ensures Beyond(states[j], w, n)
    ensures LeftLoop(states[i].workers[w].pc) ==> LeftLoop(states[j].workers[w].pc)
    decreases j
  {
    if i < j {
      assert StepAt(states, acts, j - 1);
      BeyondStays(states, acts, i, j - 1, w, n);
      StepKeepsBeyond(states[j - 1], acts[j - 1], w, n);
    }
  }

  /** The transactions of one worker try strictly later candidates; only a collision is followed by another. */
  lemma CollisionMovesOn(states: seq<State>, acts: seq<Action>, i: nat, j: nat)
    requires IsRun(states, acts) && i < j && StepAt(states, acts, i) && StepAt(states, acts, j)
    requires acts[i].CommitTx? && acts[j].CommitTx? && acts[i].w == acts[j].w
    ensures states[i].workers[acts[i].w].next < states[j].workers[acts[i].w].next
    ensures OutcomeOf(states[i], acts[i].w, acts[i].hint).IndexCollision?
    ensures states[i + 1].db == states[i].db
  {
    var w := acts[i].w;
    BeyondStays(states, acts, i + 1, j, w, states[i].workers[w].next);
  }
}
