/**
 A run of the assignment protocol in which a lock lapses and a request is fulfilled twice, built step by step.
 */
module LinkRaces {
  import opened Basics
  import opened LinkPool
  import opened LinkProtocol
  import opened LinkDelivery

  /** The steps can be taken one after the other. */
  predicate CanDo(s: State, acts: seq<Action>)
    decreases |acts|
  {
    acts == [] || (Enabled(s, acts[0]) && CanDo(Apply(s, acts[0]), acts[1..]))
  }

  /** The states that the steps pass through. */
  function Trace(s: State, acts: seq<Action>): (states: seq<State>)
    requires CanDo(s, acts)
    ensures |states| == |acts| + 1 && states[0] == s
    decreases |acts|
  {
    if acts == [] then [s] else [s] + Trace(Apply(s, acts[0]), acts[1..])
  }

  lemma {:induction false} TraceSteps(s: State, acts: seq<Action>, k: nat)
    requires CanDo(s, acts) && k < |acts|
    ensures StepAt(Trace(s, acts), acts, k)
    decreases |acts|
  {
    if k > 0 {
      TraceSteps(Apply(s, acts[0]), acts[1..], k - 1);
      assert Trace(s, acts)[1..] == Trace(Apply(s, acts[0]), acts[1..]);
    } else {
      assert Trace(s, acts)[1] == Trace(Apply(s, acts[0]), acts[1..])[0];
    }
  }

  lemma {:induction false} TraceGoesOn(s: State, acts: seq<Action>, more: seq<Action>)
    requires CanDo(s, acts) && CanDo(Trace(s, acts)[|acts|], more)
    ensures CanDo(s, acts + more)
    ensures Trace(s, acts + more)[|acts| + |more|] == Trace(Trace(s, acts)[|acts|], more)[|more|]
    ensures forall k | 0 <= k <= |acts| :: Trace(s, acts + more)[k] == Trace(s, acts)[k]
    decreases |acts|
  {
    if acts == [] {
      assert acts + more == more;
    } else {
      assert (acts + more)[1..] == acts[1..] + more;
      TraceGoesOn(Apply(s, acts[0]), acts[1..], more);
    }
  }

  function End(s: State, acts: seq<Action>): State
    requires CanDo(s, acts)
  {
    Trace(s, acts)[|acts|]
  }

  /** One step in front of others. */
  lemma DoFirst(s: State, a: Action, after: State, more: seq<Action>)
    requires Enabled(s, a) && Apply(s, a) == after && CanDo(after, more)
    ensures CanDo(s, [a] + more) && End(s, [a] + more) == End(after, more)
  {
    assert ([a] + more)[1..] == more;
  }

  function WithWorker(s: State, w: nat, me: Worker): State {
    s.(workers := s.workers[w := me])
  }

  /** A database without links in which the job's request is pending and its user known. */
  predicate Waiting(db: Db, job: Job) {
    && db.links == [] && job.family.Betano? && job.default.Some?
    && job.request in db.requests && db.requests[job.request].status.Pending? && job.user in db.emails
  }

  function AtCommitWith(job: Job, token: string, now: nat, row: Row, target: Target, email: string): Worker {
    Worker(job, token, AtCommit(row, target), now + LOCK_TTL_MS, true, [row], 0, None, email)
  }

  lemma WalkFromRows(s: State, w: nat, me: Worker, row: Row, target: Target) returns (acts: seq<Action>)
    requires w in s.workers && s.workers[w] == me && me.pc == AtRows && me.existing == None && me.next == 0
    requires Waiting(s.db, me.job) && IsFree(me.job.family, row) && TargetOf(me.job.family, row) == Some(target)
    ensures CanDo(s, acts)
    ensures End(s, acts) ==
            WithWorker(s, w, me.(pc := AtCommit(row, target), candidates := [row], email := s.db.emails[me.job.user]))
  {
    var atUser := me.(pc := AtUser, candidates := [row]);
    var atExisting := atUser.(pc := AtExisting, email := s.db.emails[me.job.user]);
    var atConflict := atExisting.(pc := AtConflict);
    var atCommit := atConflict.(pc := AtCommit(row, target));
    assert Candidates(me.job.family, [row]) == [row];
    var s1, s2, s3, s4 := WithWorker(s, w, atUser), WithWorker(s, w, atExisting), WithWorker(s, w, atConflict),
        WithWorker(s, w, atCommit);
    DoFirst(s3, CheckConflict(w), s4, []);
    DoFirst(s2, ReadExisting(w, 0), s3, [CheckConflict(w)] + []);
    DoFirst(s1, ReadUser(w), s2, [ReadExisting(w, 0)] + ([CheckConflict(w)] + []));
    DoFirst(s, ReadRows(w, Some([row])), s1, [ReadUser(w)] + ([ReadExisting(w, 0)] + ([CheckConflict(w)] + [])));
    acts := [ReadRows(w, Some([row]))] + ([ReadUser(w)] + ([ReadExisting(w, 0)] + ([CheckConflict(w)] + [])));
  }

  /** The first four steps of a call that finds the lock free or expired. */
  lemma WalkToRows(s: State, w: nat, job: Job, token: string, rest: seq<Action>)
    requires w !in s.workers && !LockHeld(s) && Waiting(s.db, job)
    requires CanDo(AtRowsState(s, w, job, token), rest)
    ensures var acts := [Start(w, job, token)]
        + ([TryLock(w, Answered)] + ([ReadRequest(w)] + ([ReadCommission(w)] + rest)));
            CanDo(s, acts) && End(s, acts) == End(AtRowsState(s, w, job, token), rest)
  {
    var me0 := NewWorker(job, token, s.now);
    var me1 := me0.(pc := AtRequest, deadline := s.now + LOCK_TTL_MS);
    var locked := s.(lock := Some(Lock(token, w, s.now + LOCK_TTL_MS)));
    var s1, s2 := WithWorker(s, w, me0), WithWorker(locked, w, me1);
    var s3, s4 := WithWorker(locked, w, me1.(pc := AtCommission)), AtRowsState(s, w, job, token);
    assert !HasCommission(s.db, job.user, job.house);
    DoFirst(s3, ReadCommission(w), s4, rest);
    DoFirst(s2, ReadRequest(w), s3, [ReadCommission(w)] + rest);
    DoFirst(s1, TryLock(w, Answered), s2, [ReadRequest(w)] + ([ReadCommission(w)] + rest));
    DoFirst(s, Start(w, job, token), s1, [TryLock(w, Answered)] + ([ReadRequest(w)] + ([ReadCommission(w)] + rest)));
  }

  function AtRowsState(s: State, w: nat, job: Job, token: string): State {
    var me := NewWorker(job, token, s.now).(pc := AtRows, deadline := s.now + LOCK_TTL_MS, applyDefault := true);
    WithWorker(s.(lock := Some(Lock(token, w, s.now + LOCK_TTL_MS))), w, me)
  }

  /** A new call that finds the lock free or expired walks up to its commit. */
  lemma WalkToCommit(s: State, w: nat, job: Job, token: string, row: Row, target: Target) returns (acts: seq<Action>)
    requires w !in s.workers && !LockHeld(s) && Waiting(s.db, job)
    requires IsFree(job.family, row) && TargetOf(job.family, row) == Some(target)
    ensures CanDo(s, acts)
    ensures End(s, acts) == State(s.now, Some(Lock(token, w, s.now + LOCK_TTL_MS)), s.db,
                                  s.workers[w := AtCommitWith(job, token, s.now, row, target, s.db.emails[job.user])])
  {
    var atRows := AtRowsState(s, w, job, token);
    var rest := WalkFromRows(atRows, w, atRows.workers[w], row, target);
    WalkToRows(s, w, job, token, rest);
    acts := [Start(w, job, token)] + ([TryLock(w, Answered)] + ([ReadRequest(w)] + ([ReadCommission(w)] + rest)));
  }

  lemma EndGoesOn(s: State, acts: seq<Action>, mid: State, more: seq<Action>, after: State)
    requires CanDo(s, acts) && End(s, acts) == mid && CanDo(mid, more) && End(mid, more) == after
    ensures CanDo(s, acts + more) && End(s, acts + more) == after
    ensures Trace(s, acts + more)[|acts|] == mid
  {
    TraceGoesOn(s, acts, more);
  }

  /** Both calls for one request are about to commit: the second began when the lock of the first had expired. */
  lemma TwoAtCommit(db: Db, job: Job, row1: Row, target1: Target, row2: Row, target2: Target)
    returns (acts: seq<Action>)
    requires Waiting(db, job) && IsFree(job.family, row1) && IsFree(job.family, row2)
    requires TargetOf(job.family, row1) == Some(target1) && TargetOf(job.family, row2) == Some(target2)
    ensures CanDo(State(0, None, db, map[]), acts)
    ensures End(State(0, None, db, map[]), acts) ==
            State(LOCK_TTL_MS, Some(Lock("second", 1, 2 * LOCK_TTL_MS)), db,
                  map[0 := AtCommitWith(job, "first", 0, row1, target1, db.emails[job.user]),
                      1 := AtCommitWith(job, "second", LOCK_TTL_MS, row2, target2, db.emails[job.user])])
  {
    var s0 := State(0, None, db, map[]);
    var first := WalkToCommit(s0, 0, job, "first", row1, target1);
    var s1 := End(s0, first);
    var s2 := Apply(s1, Tick(LOCK_TTL_MS));
    var second := WalkToCommit(s2, 1, job, "second", row2, target2);
    DoFirst(s1, Tick(LOCK_TTL_MS), s2, second);
    EndGoesOn(s0, first, s1, [Tick(LOCK_TTL_MS)] + second, End(s2, second));
    acts := first + ([Tick(LOCK_TTL_MS)] + second);
  }

  /** After a lapsed lock two calls can use up two rows for one request, each with a commit. */
  lemma RequestCanBeFulfilledTwice(db: Db, job: Job, row1: Row, target1: Target, row2: Row, target2: Target)
    returns (states: seq<State>, acts: seq<Action>, i: nat)
    requires Waiting(db, job) && IsFree(job.family, row1) && IsFree(job.family, row2)
    requires TargetOf(job.family, row1) == Some(target1) && TargetOf(job.family, row2) == Some(target2)
    ensures IsRun(states, acts) && states[0].db == db && i + 1 < |acts|
    ensures Fulfils(states[i], acts[i], job.request) && Fulfils(states[i + 1], acts[i + 1], job.request)
  {
    var s0 := State(0, None, db, map[]);
    var before := TwoAtCommit(db, job, row1, target1, row2, target2);
    var s := End(s0, before);
    var c0, c1 := CommitTx(0, 0, true), CommitTx(1, 0, true);
    var s' := Apply(s, c0);
    FirstOfTwoCommits(s, job, row1, target1);
    assert Enabled(s', c1);
    DoFirst(s', c1, Apply(s', c1), []);
    DoFirst(s, c0, s', [c1] + []);
    EndGoesOn(s0, before, s, [c0] + ([c1] + []), Apply(s', c1));
    acts, i := before + ([c0] + ([c1] + [])), |before|;
    states := Trace(s0, acts);
    forall k: nat | k < |acts|
      ensures StepAt(states, acts, k)
    {
      TraceSteps(s0, acts, k);
    }
    assert acts[i] == c0 && acts[i + 1] == c1 && states[i] == s;
    assert StepAt(states, acts, i) && states[i + 1] == s';
    FulfilledAgainExactlyWhen(states, acts, i, i + 1, job.request);
  }

  /** The first commit finds no link and writes one; nothing else is in the table. */
  lemma FirstOfTwoCommits(s: State, job: Job, row: Row, target: Target)
    requires Waiting(s.db, job) && 0 in s.workers && s.workers[0].job == job && s.workers[0].pc == AtCommit(row, target)
    ensures Fulfils(s, CommitTx(0, 0, true), job.request)
    ensures var db := Apply(s, CommitTx(0, 0, true)).db;
            && |db.links| == 1 && ActiveFor(db, 0, job.user, job.house)
            && forall campaign, hint :: !Collides(db, job.house, campaign, FindLink(db, job.user, job.house, hint))
  {
  }
}
