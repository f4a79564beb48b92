/**
 The assignment protocol as a state machine.

 Any number of workers run `tryAssign` for both houses of one family.  Every `await` of the source
 is a step of its own, so reads may be stale by the time they are used; the database transaction is
 one step.  Time, lock expiry, lost replies of the lock server and of the database, exceptions and crashes
 are steps too.
 The rows a worker sees are chosen freely by the environment, so an array that was read before
 the lock was taken is covered.
 */
module LinkProtocol {
  import opened Basics
  import opened LinkPool

  /** The lock cell.  `owner` records which worker wrote it; the protocol itself only sees `token`. */
  datatype Lock = Lock(token: string, owner: nat, expiresAt: nat)

  datatype Pc =
    | AwaitLock(attempt: nat, wakeAt: nat)
    | AtRequest
    | AtCommission
    | AtRows
    | AtUser
    | AtExisting
    | AtConflict
    | AtCommit(row: Row, target: Target)
    | AtRelease(result: Result)
    | Finished(result: Result)
    | Crashed

  datatype Worker = Worker(job: Job, token: string, pc: Pc, deadline: nat, applyDefault: bool,
                           candidates: seq<Row>, next: nat, existing: Option<nat>, email: string)

  datatype State = State(now: nat, lock: Option<Lock>, db: Db, workers: map<nat, Worker>)

  /** How the lock server answered: a reply, a reply that got lost on the way, or nothing at all. */
  datatype Reply = Answered | AnswerLost | Unreachable

  datatype Action =
    | Tick(ms: nat)
    | Start(w: nat, job: Job, token: string)
    | TryLock(w: nat, reply: Reply)
    | ReadRequest(w: nat)
    | ReadCommission(w: nat)
    | ReadRows(w: nat, rows: Option<seq<Row>>)
    | ReadUser(w: nat)
    | ReadExisting(w: nat, hint: nat)
    | CheckConflict(w: nat)
    | CommitTx(w: nat, hint: nat, answered: bool)
    | Release(w: nat, reached: bool)
    | Fail(w: nat)
    | Crash(w: nat)

  /** Between acquiring the lock and the end of `releaseLock`. */
  predicate InSection(pc: Pc) {
    !pc.AwaitLock? && !pc.Finished? && !pc.Crashed?
  }

  predicate LockHeld(s: State) {
    s.lock.Some? && s.now < s.lock.value.expiresAt
  }

  predicate Enabled(s: State, a: Action) {
    match a
    case Tick(_) => true
    case Start(w, _, _) => w !in s.workers
    case TryLock(w, _) => w in s.workers && s.workers[w].pc.AwaitLock? && s.workers[w].pc.wakeAt <= s.now
    case ReadRequest(w) => w in s.workers && s.workers[w].pc.AtRequest?
    case ReadCommission(w) => w in s.workers && s.workers[w].pc.AtCommission?
    case ReadRows(w, _) => w in s.workers && s.workers[w].pc.AtRows?
    case ReadUser(w) => w in s.workers && s.workers[w].pc.AtUser?
    case ReadExisting(w, _) => w in s.workers && s.workers[w].pc.AtExisting?
    case CheckConflict(w) => w in s.workers && s.workers[w].pc.AtConflict?
    case CommitTx(w, _, _) => w in s.workers && s.workers[w].pc.AtCommit?
    case Release(w, _) => w in s.workers && s.workers[w].pc.AtRelease?
    case Fail(w) => w in s.workers && InSection(s.workers[w].pc) && !s.workers[w].pc.AtRelease?
    case Crash(w) => w in s.workers && !s.workers[w].pc.Finished?
  }

  // ----- One step of one worker -----

  function GiveUp(reason: Reason): Pc {
    AtRelease(NotAssigned(reason))
  }

  function AfterFailedAttempt(attempt: nat, now: nat): Pc {
    if attempt < |BACKOFF_DELAYS_MS| then AwaitLock(attempt + 1, now + BACKOFF_DELAYS_MS[attempt])
    else Finished(NotAssigned(LockBusy))
  }

  /** The attempt finds the key absent or expired. */
  predicate Granted(s: State, reply: Reply) {
    !reply.Unreachable? && !LockHeld(s)
  }

  function AfterAttempt(s: State, me: Worker, reply: Reply): Worker
    requires me.pc.AwaitLock?
  {
    if Granted(s, reply) && reply.Answered? then me.(pc := AtRequest, deadline := s.now + LOCK_TTL_MS)
    else me.(pc := AfterFailedAttempt(me.pc.attempt, s.now))
  }

  function AfterRequest(db: Db, me: Worker): Worker {
    if me.job.request !in db.requests then me.(pc := GiveUp(RequestNotFound))
    else if !db.requests[me.job.request].status.Pending? then me.(pc := GiveUp(AlreadyFulfilled))
    else me.(pc := if me.job.family.Betano? then AtCommission else AtRows)
  }

  function AfterCommission(db: Db, me: Worker): Worker {
    var has := HasCommission(db, me.job.user, me.job.house);
    if !has && me.job.default.None? then me.(pc := GiveUp(CommissionNotSet))
    else me.(pc := AtRows, applyDefault := !has)
  }

  function AfterRows(me: Worker, rows: Option<seq<Row>>): Worker {
    if rows.None? then me.(pc := GiveUp(SheetReadFailed))
    else if Candidates(me.job.family, rows.value) == [] then me.(pc := GiveUp(PoolEmpty))
    else me.(pc := AtUser, candidates := Candidates(me.job.family, rows.value), next := 0)
  }

  function AfterUser(db: Db, me: Worker): Worker {
    if me.job.user !in db.emails then me.(pc := GiveUp(AllConflicts))
    else me.(pc := AtExisting, email := db.emails[me.job.user])
  }

  function AfterConflict(db: Db, me: Worker): Worker {
    if me.next >= |me.candidates| then me.(pc := GiveUp(AllConflicts))
    else
      var row := me.candidates[me.next];
      var target := TargetOf(me.job.family, row);
      if target.None? || Conflicts(db, target.value.campaign, me.existing) then me.(next := me.next + 1)
      else me.(pc := AtCommit(row, target.value))
  }

  function OutcomeOf(s: State, w: nat, hint: nat): Outcome
    requires w in s.workers && s.workers[w].pc.AtCommit?
  {
    var me := s.workers[w];
    Transact(s.db, me.job, me.applyDefault, me.pc.row, me.pc.target, hint)
  }

  function Success(me: Worker): Result
    requires me.pc.AtCommit?
  {
    Assigned(me.pc.target.campaign, me.pc.target.affiliateId, me.pc.row.link, me.pc.row.rowIndex, me.email)
  }

  function AfterCommit(s: State, w: nat, hint: nat): Worker
    requires w in s.workers && s.workers[w].pc.AtCommit?
  {
    var me := s.workers[w];
    match OutcomeOf(s, w, hint)
    case Committed(_) => me.(pc := AtRelease(Success(me)))
    case NoLongerPending => me.(pc := AtRelease(Success(me)))
    case IndexCollision => me.(pc := AtConflict, next := me.next + 1)
    case RequestMissing => me.(pc := AtRelease(Threw))
  }

  function NewWorker(job: Job, token: string, now: nat): Worker {
    Worker(job, token, AwaitLock(0, now), 0, false, [], 0, None, "")
  }

  function WorkerAfter(s: State, a: Action): Worker
    requires Enabled(s, a) && !a.Tick?
  {
    match a
    case Start(w, job, token) => NewWorker(job, token, s.now)
    case TryLock(w, reply) => AfterAttempt(s, s.workers[w], reply)
    case ReadRequest(w) => AfterRequest(s.db, s.workers[w])
    case ReadCommission(w) => AfterCommission(s.db, s.workers[w])
    case ReadRows(w, rows) => AfterRows(s.workers[w], rows)
    case ReadUser(w) => AfterUser(s.db, s.workers[w])
    case ReadExisting(w, hint) =>
      var me := s.workers[w];
      me.(pc := AtConflict, existing := FindLink(s.db, me.job.user, me.job.house, hint))
    case CheckConflict(w) => AfterConflict(s.db, s.workers[w])
    case CommitTx(w, hint, answered) => if answered
        then AfterCommit(s, w, hint) else s.workers[w].(pc := AtRelease(Threw))
    case Release(w, _) => s.workers[w].(pc := Finished(s.workers[w].pc.result))
    case Fail(w) => s.workers[w].(pc := AtRelease(Threw))
    case Crash(w) => s.workers[w].(pc := Crashed)
  }

  /** SET NX writes the cell if it is free; the release script deletes it only if the token matches. */
  function LockAfter(s: State, a: Action): Option<Lock>
    requires Enabled(s, a)
  {
    if a.TryLock? && Granted(s, a.reply) then Some(Lock(s.workers[a.w].token, a.w, s.now + LOCK_TTL_MS))
    else if a.Release? && a.reached && LockHeld(s) && s.lock.value.token == s.workers[a.w].token then None
    else s.lock
  }

  /** The step is a transaction that takes effect, whether or not the client hears of it. */
  predicate Commits(s: State, a: Action)
    requires Enabled(s, a)
  {
    a.CommitTx? && OutcomeOf(s, a.w, a.hint).Committed?
  }

  function DbAfter(s: State, a: Action): Db
    requires Enabled(s, a)
  {
    if Commits(s, a) then OutcomeOf(s, a.w, a.hint).db else s.db
  }

  function Apply(s: State, a: Action): State
    requires Enabled(s, a)
  {
    if a.Tick? then s.(now := s.now + a.ms)
    else State(s.now, LockAfter(s, a), DbAfter(s, a), s.workers[a.w := WorkerAfter(s, a)])
  }

  // ----- Runs -----

  /** The run takes step `i` as the protocol allows. */
  ghost predicate StepAt(states: seq<State>, acts: seq<Action>, i: nat) {
    i < |acts| && i + 1 < |states| && Enabled(states[i], acts[i]) && states[i + 1] == Apply(states[i], acts[i])
  }

  ghost predicate IsRun(states: seq<State>, acts: seq<Action>) {
    && |states| == |acts| + 1
    && states[0].lock.None? && states[0].workers == map[]
    && forall i: nat | i < |acts| :: StepAt(states, acts, i)
  }

  /** No critical section is older than the lock's time to live. */
  ghost predicate Timely(s: State) {
    forall w | w in s.workers && InSection(s.workers[w].pc) :: s.now < s.workers[w].deadline
  }

  ghost predicate TimelyRun(states: seq<State>, acts: seq<Action>) {
    IsRun(states, acts) && forall i | 0 <= i < |states| :: Timely(states[i])
  }

  ghost predicate DistinctTokens(s: State) {
    forall v, w | v in s.workers && w in s.workers && v != w :: s.workers[v].token != s.workers[w].token
  }

  // ----- Mutual exclusion -----

  ghost predicate LockIsMine(s: State) {
    forall w | w in s.workers && InSection(s.workers[w].pc) ::
      s.lock == Some(Lock(s.workers[w].token, w, s.workers[w].deadline))
  }

  /** The only way into the section is a granted attempt whose answer arrives. */
  lemma SectionEntry(s: State, a: Action)
    requires Enabled(s, a) && !a.Tick? && InSection(WorkerAfter(s, a).pc)
    ensures a.w in s.workers && WorkerAfter(s, a).token == s.workers[a.w].token
    ensures if InSection(s.workers[a.w].pc) then !a.Release? && WorkerAfter(s, a).deadline == s.workers[a.w].deadline
            else a.TryLock? && Granted(s, a.reply) && WorkerAfter(s, a).deadline == s.now + LOCK_TTL_MS
  {
  }

  lemma StepKeepsLockIsMine(s: State, a: Action)
    requires LockIsMine(s) && Timely(s) && Enabled(s, a)
    ensures LockIsMine(Apply(s, a))
  {
    if !a.Tick? && InSection(WorkerAfter(s, a).pc) {
      SectionEntry(s, a);
    }
  }

  lemma {:induction false} LockIsMineAlways(states: seq<State>, acts: seq<Action>, i: nat)
    requires TimelyRun(states, acts) && i < |states|
    ensures LockIsMine(states[i])
  {
    if i > 0 {
      assert StepAt(states, acts, i - 1);
      LockIsMineAlways(states, acts, i - 1);
      StepKeepsLockIsMine(states[i - 1], acts[i - 1]);
    }
  }

  /** At most one worker is in the section, even if tokens collide. */
  lemma MutualExclusion(states: seq<State>, acts: seq<Action>, i: nat, v: nat, w: nat)
    requires TimelyRun(states, acts) && i < |states|
    requires v in states[i].workers && InSection(states[i].workers[v].pc)
    requires w in states[i].workers && InSection(states[i].workers[w].pc)
    ensures v == w && LockHeld(states[i]) && states[i].lock.value.owner == v
  {
    LockIsMineAlways(states, acts, i);
  }

  ghost predicate LockHasToken(s: State) {
    s.lock.Some? ==> s.lock.value.owner in s.workers && s.lock.value.token == s.workers[s.lock.value.owner].token
  }

  lemma {:induction false} LockHasTokenAlways(states: seq<State>, acts: seq<Action>, i: nat)
    requires IsRun(states, acts) && i < |states|
    ensures LockHasToken(states[i])
  {
    if i > 0 {
      assert StepAt(states, acts, i - 1);
      LockHasTokenAlways(states, acts, i - 1);
    }
  }

  /** With distinct tokens a release never frees another worker's lock, even after the lock has lapsed. */
  lemma ReleaseFreesOnlyOwnLock(states: seq<State>, acts: seq<Action>, i: nat)
    requires IsRun(states, acts) && i < |acts| && DistinctTokens(states[i])
    requires acts[i].Release? && states[i + 1].lock != states[i].lock
    ensures states[i].lock.Some? && states[i].lock.value.owner == acts[i].w && states[i + 1].lock.None?
  {
    assert StepAt(states, acts, i);
    LockHasTokenAlways(states, acts, i);
  }

  // ----- The unique index, in every run -----

  lemma {:induction false} HouseUniqueAlways(states: seq<State>, acts: seq<Action>, i: nat)
    requires IsRun(states, acts) && i < |states| && HouseUnique(states[0].db)
    ensures HouseUnique(states[i].db)
  {
    if i > 0 {
      assert StepAt(states, acts, i - 1);
      HouseUniqueAlways(states, acts, i - 1);
      var s, a := states[i - 1], acts[i - 1];
      if a.CommitTx? && OutcomeOf(s, a.w, a.hint).Committed? {
        var me := s.workers[a.w];
        TransactKeepsHouseUnique(s.db, me.job, me.applyDefault, me.pc.row, me.pc.target, a.hint);
      }
    }
  }

  lemma {:induction false} OneLinkPerUserAlways(states: seq<State>, acts: seq<Action>, i: nat)
    requires IsRun(states, acts) && i < |states| && OneLinkPerUser(states[0].db)
    ensures OneLinkPerUser(states[i].db)
  {
    if i > 0 {
      assert StepAt(states, acts, i - 1);
      OneLinkPerUserAlways(states, acts, i - 1);
      var s, a := states[i - 1], acts[i - 1];
      if a.CommitTx? && OutcomeOf(s, a.w, a.hint).Committed? {
        var me := s.workers[a.w];
        TransactKeepsOneLinkPerUser(s.db, me.job, me.applyDefault, me.pc.row, me.pc.target, a.hint);
      }
    }
  }

  // ----- No campaign in both houses, in timely runs -----

  /** The link excluded from the pre-check belongs to the worker's own house. */
  ghost predicate ExistingInHouse(s: State) {
    forall w | w in s.workers && s.workers[w].existing.Some? ::
      var i := s.workers[w].existing.value;
      i < |s.db.links| && s.db.links[i].house == s.workers[w].job.house
  }

  /** A link keeps its place and its house. */
  lemma StepKeepsHouseOf(s: State, a: Action, i: nat)
    requires Enabled(s, a) && i < |s.db.links|
    ensures i < |DbAfter(s, a).links| && DbAfter(s, a).links[i].house == s.db.links[i].house
  {
    if Commits(s, a) {
      var me := s.workers[a.w];
      TransactKeepsIdentity(s.db, me.job, me.applyDefault, me.pc.row, me.pc.target, a.hint, i);
    }
  }

  /** A worker's excluded link is the one it had, or one of its own house that it has just read. */
  lemma ExistingStep(s: State, a: Action, w: nat)
    requires Enabled(s, a) && w in Apply(s, a).workers && Apply(s, a).workers[w].existing.Some?
    ensures var me := Apply(s, a).workers[w];
            || (w in s.workers && me.existing == s.workers[w].existing && me.job == s.workers[w].job)
            || (DbAfter(s, a) == s.db && me.existing.value < |s.db.links|
                && s.db.links[me.existing.value].house == me.job.house)
  {
  }

  lemma StepKeepsExistingInHouse(s: State, a: Action)
    requires ExistingInHouse(s) && Enabled(s, a)
    ensures ExistingInHouse(Apply(s, a))
  {
    var s' := Apply(s, a);
    assert s'.db == DbAfter(s, a);
    forall w | w in s'.workers && s'.workers[w].existing.Some?
      ensures var i := s'.workers[w].existing.value;
              i < |s'.db.links| && s'.db.links[i].house == s'.workers[w].job.house
    {
      ExistingStep(s, a, w);
      if w in s.workers && s'.workers[w].existing == s.workers[w].existing && s'.workers[w].job == s.workers[w].job {
        StepKeepsHouseOf(s, a, s.workers[w].existing.value);
      }
    }
  }

  /** A worker about to commit has seen its campaign free in the other house, and it still is. */
  ghost predicate CheckedStillFree(s: State) {
    forall w | w in s.workers && s.workers[w].pc.AtCommit? ::
      FreeIn(s.db, OtherHouse(s.workers[w].job.house), s.workers[w].pc.target.campaign)
  }

  lemma StepKeepsFamilyUnique(s: State, a: Action)
    requires LockIsMine(s) && ExistingInHouse(s) && CheckedStillFree(s) && FamilyUnique(s.db) && Enabled(s, a)
    ensures CheckedStillFree(Apply(s, a)) && FamilyUnique(Apply(s, a).db)
  {
    var s' := Apply(s, a);
    if Commits(s, a) {
      var me := s.workers[a.w];
      TransactKeepsFamilyUnique(s.db, me.job, me.applyDefault, me.pc.row, me.pc.target, a.hint);
      assert forall w | w in s.workers && InSection(s.workers[w].pc) :: w == a.w;
    } else {
      forall w | w in s'.workers && s'.workers[w].pc.AtCommit?
        ensures FreeIn(s'.db, OtherHouse(s'.workers[w].job.house), s'.workers[w].pc.target.campaign)
      {
        if !a.Tick? && a.w == w {
          NewCandidateIsFree(s, a);
        }
      }
    }
  }

  /** The only way to the commit is a pre-check that found no conflict. */
  lemma NewCandidateIsFree(s: State, a: Action)
    requires ExistingInHouse(s) && Enabled(s, a) && !a.Tick? && !Commits(s, a)
    requires a.w in Apply(s, a).workers && Apply(s, a).workers[a.w].pc.AtCommit?
    ensures var me := Apply(s, a).workers[a.w]; FreeIn(s.db, OtherHouse(me.job.house), me.pc.target.campaign)
  {
    var me := s.workers[a.w];
    assert a.CheckConflict?;
    NoConflictFreesOtherHouse(s.db, me.job, AfterConflict(s.db, me).pc.target.campaign, me.existing);
  }

  lemma {:induction false} FamilyInvariants(states: seq<State>, acts: seq<Action>, i: nat)
    requires TimelyRun(states, acts) && i < |states| && FamilyUnique(states[0].db)
    ensures ExistingInHouse(states[i]) && CheckedStillFree(states[i]) && FamilyUnique(states[i].db)
  {
    if i > 0 {
      assert StepAt(states, acts, i - 1);
      FamilyInvariants(states, acts, i - 1);
      LockIsMineAlways(states, acts, i - 1);
      StepKeepsExistingInHouse(states[i - 1], acts[i - 1]);
      StepKeepsFamilyUnique(states[i - 1], acts[i - 1]);
    }
  }

  /** No two active links of the two houses ever carry the same campaign. */
  lemma NoCampaignInBothHouses(states: seq<State>, acts: seq<Action>, k: nat, i: nat, j: nat)
    requires TimelyRun(states, acts) && k < |states| && FamilyUnique(states[0].db)
    requires i < |states[k].db.links| && j < |states[k].db.links| && i != j
    requires states[k].db.links[i].active && states[k].db.links[j].active
    ensures states[k].db.links[i].campaign != states[k].db.links[j].campaign
  {
    FamilyInvariants(states, acts, k);
  }
}
