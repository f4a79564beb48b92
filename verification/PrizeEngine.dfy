/**
 Runs of the CPA prize engine.

 In `Run`, evaluators of any rule version interleave freely with each other and with the life cycle of
 the awards.  Reading and committing are separate steps everywhere -- of the progress row for an evaluator,
 of the award for a redemption, approval, rejection or cancellation -- and no lock protects them.
 In `Replay`, evaluations and life-cycle calls happen one after the other, as under the advisory lock.
*/
module PrizeEngine {
  import opened PrizeLedger

  // ----- The engine's operations as methods on the stored tables -----

  class PrizeStore {
    var awards: seq<Award>
    var progress: map<Key, Progress>
    var bonus: map<string, real>

    constructor ()
      ensures Tables() == Ledger([], map[], map[])
    {
      awards, progress, bonus := [], map[], map[];
    }

    function Tables(): Ledger
      reads this
    {
      Ledger(awards, progress, bonus)
    }

    method GenerateForUser(v: Version, user: string, total: int) returns (generated: nat)
      requires v.cpaPerPrize >= 1
      modifies this
      ensures var already := Generated(old(Tables()), Key(v.id, user));
              (Tables(), generated) == Commit(old(Tables()), v, user, total, already)
    {
      var key := Key(v.id, user);
      var earned := total / v.cpaPerPrize;
      var already := if key in progress then progress[key].generated else 0;
      var delta := earned - already;
      if delta <= 0 {
        progress := progress[key := if key in progress
            then progress[key].(total := total) else Progress(total, already)];
        return 0;
      }
      if Taken(Tables(), key, already, earned) {
        return 0;
      }
      awards := awards + Fresh(v, user, already, delta);
      progress := progress[key := Progress(total, earned)];
      return delta;
    }

    /** The loop of `evaluateRuleVersion` over the computed totals. */
    method EvaluateTotals(v: Version, totals: seq<(string, int)>) returns (generated: nat)
      requires v.cpaPerPrize >= 1
      modifies this
      ensures (Tables(), generated) == EvaluateAll(old(Tables()), v, totals)
    {
      generated := 0;
      ghost var before := Tables();
      for i := 0 to |totals|
        invariant (Tables(), generated) == EvaluateAll(before, v, totals[..i])
      {
        assert totals[..i + 1][..i] == totals[..i];
        var n := GenerateForUser(v, totals[i].0, totals[i].1);
        generated := generated + n;
      }
      assert totals[..|totals|] == totals;
    }

    /** In the four calls below `seen` is what the read before the transaction found. */
    method RequestRedemption(user: string, award: nat, seen: seq<Award>) returns (reply: Reply)
      requires SameAwards(seen, awards)
      modifies this
      ensures reply == Check(seen, RedeemCall(award, user))
      ensures Tables() == if reply.Done? then Write(old(Tables()), RedeemCall(award, user)) else old(Tables())
    {
      if award >= |seen| { return NotFound; }
      if seen[award].key.user != user { return Forbidden; }
      if seen[award].status != Available { return Conflict; }
      awards := awards[award := awards[award].(status := RedemptionRequested)];
      return Done;
    }

    method ApproveRedemption(award: nat, seen: seq<Award>) returns (reply: Reply)
      requires SameAwards(seen, awards)
      modifies this
      ensures reply == Check(seen, ApproveCall(award))
      ensures Tables() == if reply.Done? then Write(old(Tables()), ApproveCall(award)) else old(Tables())
    {
      if award >= |seen| { return NotFound; }
      var a := seen[award];
      if a.status != RedemptionRequested { return Conflict; }
      if a.prizeType == Balance && a.prizeValue > 0.0 {
        bonus := bonus[a.key.user := (if a.key.user in bonus then bonus[a.key.user] else 0.0) + a.prizeValue];
      }
      awards := awards[award := awards[award].(status := Paid, credited := a.prizeType == Balance
                                               && a.prizeValue > 0.0)];
      return Done;
    }

    method RejectRedemption(award: nat, seen: seq<Award>) returns (reply: Reply)
      requires SameAwards(seen, awards)
      modifies this
      ensures reply == Check(seen, RejectCall(award))
      ensures Tables() == if reply.Done? then Write(old(Tables()), RejectCall(award)) else old(Tables())
    {
      if award >= |seen| { return NotFound; }
      if seen[award].status != RedemptionRequested { return Conflict; }
      awards := awards[award := awards[award].(status := Rejected)];
      return Done;
    }

    method CancelAward(award: nat, seen: seq<Award>) returns (reply: Reply)
      requires SameAwards(seen, awards)
      modifies this
      ensures reply == Check(seen, CancelCall(award))
      ensures Tables() == if reply.Done? then Write(old(Tables()), CancelCall(award)) else old(Tables())
    {
      if award >= |seen| { return NotFound; }
      if seen[award].status == Paid || seen[award].status == Cancelled { return Conflict; }
      awards := awards[award := awards[award].(status := Cancelled)];
      return Done;
    }
  }

  function EvaluateAll(l: Ledger, v: Version, totals: seq<(string, int)>): (Ledger, nat)
    requires v.cpaPerPrize >= 1
  {
    if totals == [] then (l, 0)
    else
      var n := |totals| - 1;
      var (l', before) := EvaluateAll(l, v, totals[..n]);
      var (user, total) := totals[n];
      var (l'', now) := Commit(l', v, user, total, Generated(l', Key(v.id, user)));
      (l'', before + now)
  }

  // ----- Arbitrary interleavings -----

  /** A running `generateForUser`: its arguments and the progress value it has read. */
  datatype Evaluator = Evaluator(v: Version, user: string, total: int, already: int)

  datatype Action =
    | Begin(e: nat, v: Version, user: string, total: int)
    | Finish(e: nat)
    | ReadAward(c: nat, call: Call)
    | WriteAward(c: nat)

  /** `calls` are the life-cycle calls whose check has passed and whose transaction is still to come. */
  datatype State = State(ledger: Ledger, running: map<nat, Evaluator>, calls: map<nat, Call>)

  predicate Enabled(s: State, a: Action) {
    match a
    case Begin(e, v, _, _) => e !in s.running && v.cpaPerPrize >= 1
    case Finish(e) => e in s.running && s.running[e].v.cpaPerPrize >= 1
    case ReadAward(c, _) => c !in s.calls
    case WriteAward(c) => c in s.calls && s.calls[c].award < |s.ledger.awards|
  }

  function LedgerAfter(s: State, a: Action): Ledger
    requires Enabled(s, a)
  {
    match a
    case Begin(_, _, _, _) => s.ledger
    case Finish(e) => var x := s.running[e]; Commit(s.ledger, x.v, x.user, x.total, x.already).0
    case ReadAward(_, _) => s.ledger
    case WriteAward(c) => Write(s.ledger, s.calls[c])
  }

  function Apply(s: State, a: Action): State
    requires Enabled(s, a)
  {
    match a
    case Begin(e, v, user,
               total) => s.(running := s.running[e := Evaluator(v, user, total, Generated(s.ledger, Key(v.id, user)))])
    case Finish(e) => s.(ledger := LedgerAfter(s, a), running := s.running - {e})
    case ReadAward(c, call) => if Check(s.ledger.awards, call).Done? then s.(calls := s.calls[c := call]) else s
    case WriteAward(c) => s.(ledger := LedgerAfter(s, a), calls := s.calls - {c})
  }

  /** The run takes step `i` as the engine allows. */
  ghost predicate StepAt(states: seq<State>, acts: seq<Action>, i: nat) {
    i < |acts| && i + 1 < |states| && Enabled(states[i], acts[i]) && states[i + 1] == Apply(states[i], acts[i])
  }

  ghost predicate IsRun(states: seq<State>, acts: seq<Action>) {
    && |states| == |acts| + 1 && states[0].running == map[] && states[0].calls == map[]
    && forall i: nat | i < |acts| :: StepAt(states, acts, i)
  }

  /** No evaluator has read more awards than exist now. */
  ghost predicate ReadsAreOld(s: State) {
    forall e | e in s.running ::
      0 <= s.running[e].already <= Generated(s.ledger, Key(s.running[e].v.id, s.running[e].user))
  }

  lemma StepKeepsNumbering(s: State, a: Action)
    requires Enabled(s, a) && Contiguous(s.ledger) && ReadsAreOld(s)
    ensures Contiguous(LedgerAfter(s, a)) && ReadsAreOld(Apply(s, a))
  {
    if a.Finish? {
      var x := s.running[a.e];
      CommitKeepsContiguous(s.ledger, x.v, x.user, x.total, x.already);
    } else if a.WriteAward? {
      WriteKeepsCycles(s.ledger, s.calls[a.c]);
      SameCyclesKeepContiguous(s.ledger, LedgerAfter(s, a));
    }
  }

  /** The unique constraint alone keeps the cycles of every (version, user) equal to 1..awardsGenerated. */
  lemma {:induction false} CyclesAreNumberedAlways(states: seq<State>, acts: seq<Action>, i: nat)
    requires IsRun(states, acts) && i < |states| && Contiguous(states[0].ledger)
    ensures Contiguous(states[i].ledger) && ReadsAreOld(states[i])
  {
    if i > 0 {
      assert StepAt(states, acts, i - 1);
      CyclesAreNumberedAlways(states, acts, i - 1);
      StepKeepsNumbering(states[i - 1], acts[i - 1]);
    }
  }

  /** An evaluator that lost the race writes nothing; one that did not brings the count to `earned`. */
  lemma LosersWriteNothing(states: seq<State>, acts: seq<Action>, i: nat)
    requires IsRun(states, acts) && i < |acts| && StepAt(states, acts, i) && Contiguous(states[0].ledger)
        && acts[i].Finish?
    requires var x := states[i].running[acts[i].e]; x.already < Earned(x.v, x.total)
    ensures var x := states[i].running[acts[i].e];
            var key := Key(x.v.id, x.user);
            if x.already == Generated(states[i].ledger, key)
            then Generated(states[i + 1].ledger, key) == Earned(x.v, x.total)
            else states[i + 1].ledger == states[i].ledger
  {
    assert StepAt(states, acts, i);
    CyclesAreNumberedAlways(states, acts, i);
    var x := states[i].running[acts[i].e];
    StaleCommitCollides(states[i].ledger, x.v, x.user, x.total, x.already);
  }

  // ----- Bonus conservation and the life cycle -----

  /** What the writes among the first `n` steps have counted twice: the values of awards that were paid already. */
  ghost function CountedTwice(states: seq<State>, acts: seq<Action>, n: nat, user: string): real
    requires IsRun(states, acts) && n <= |acts|
  {
    if n == 0 then 0.0
    else
      assert StepAt(states, acts, n - 1);
      CountedTwice(states, acts, n - 1, user) + TwiceAt(states[n - 1], acts[n - 1], user)
  }

  function TwiceAt(s: State, a: Action, user: string): real
    requires Enabled(s, a)
  {
    if a.WriteAward? then CreditOf(s.ledger.awards[s.calls[a.c].award], user) else 0.0
  }

  /** Step `k` writes to a balance award of the user that is paid already. */
  ghost predicate HitsPaid(states: seq<State>, acts: seq<Action>, k: nat, user: string) {
    StepAt(states, acts, k) && acts[k].WriteAward? &&
    var award := states[k].ledger.awards[states[k].calls[acts[k].c].award];
    award.key.user == user && award.status == Paid && PaysOut(award)
  }

  /**
   Over any run a user's balance grows by the value of their paid balance awards, each once, plus the values that
   writes to paid awards have counted twice.
   */
  lemma {:induction false} BonusGrowsBy(states: seq<State>, acts: seq<Action>, i: nat, user: string)
    requires IsRun(states, acts) && i < |states|
    ensures BonusOf(states[i].ledger, user) - BonusOf(states[0].ledger, user) ==
            Credits(states[i].ledger.awards, user) - Credits(states[0].ledger.awards, user)
                + CountedTwice(states, acts, i, user)
  {
    if i > 0 {
      assert StepAt(states, acts, i - 1);
      BonusGrowsBy(states, acts, i - 1, user);
      var s, a := states[i - 1], acts[i - 1];
      if a.Finish? {
        var x := s.running[a.e];
        CommitConserves(s.ledger, x.v, x.user, x.total, x.already, user);
      } else if a.WriteAward? {
        WriteAddsToSurplus(s.ledger, s.calls[a.c], user);
      }
    }
  }

  lemma {:induction false} NothingTwiceExactlyWhen(states: seq<State>, acts: seq<Action>, n: nat, user: string)
    requires IsRun(states, acts) && n <= |acts|
    ensures CountedTwice(states, acts, n, user) >= 0.0
    ensures CountedTwice(states, acts, n, user) == 0.0 <==> forall k | 0 <= k < n :: !HitsPaid(states, acts, k, user)
  {
    if n > 0 {
      assert StepAt(states, acts, n - 1);
      NothingTwiceExactlyWhen(states, acts, n - 1, user);
      assert TwiceAt(states[n - 1], acts[n - 1], user) >= 0.0;
      assert TwiceAt(states[n - 1], acts[n - 1], user) == 0.0 <==> !HitsPaid(states, acts, n - 1, user);
    }
  }

  /**
   A user's balance grows by exactly the value of their paid balance awards if and only if no write of an overlapping
   call hits one of them after it was paid.
   */
  lemma BonusIsConserved(states: seq<State>, acts: seq<Action>, i: nat, user: string)
    requires IsRun(states, acts) && i < |states|
    ensures BonusOf(states[i].ledger, user) - BonusOf(states[0].ledger, user) ==
            Credits(states[i].ledger.awards, user) - Credits(states[0].ledger.awards, user)
            <==> forall k | 0 <= k < i :: !HitsPaid(states, acts, k, user)
  {
    BonusGrowsBy(states, acts, i, user);
    NothingTwiceExactlyWhen(states, acts, i, user);
  }

  /** A write whose check no longer holds and which changes a status that some other call has set since its own read. */
  predicate Overrules(s: State, a: Action)
    requires Enabled(s, a)
  {
    a.WriteAward? &&
    var status := s.ledger.awards[s.calls[a.c].award].status;
    !Admits(s.calls[a.c], status) && status != TargetStatus(s.calls[a.c])
  }

  ghost predicate OverrulesAt(states: seq<State>, acts: seq<Action>, n: nat) {
    StepAt(states, acts, n) && Overrules(states[n], acts[n])
  }

  /** Awards stay where they are, and their statuses take allowed steps only. */
  ghost predicate Advances(before: Ledger, after: Ledger) {
    && SameAwards(before.awards, after.awards)
    && forall k | 0 <= k < |before.awards| :: StatusStep(before.awards[k].status, after.awards[k].status)
  }

  lemma StepKeepsAwards(s: State, a: Action)
    requires Enabled(s, a)
    ensures SameAwards(s.ledger.awards, Apply(s, a).ledger.awards)
    ensures Advances(s.ledger, Apply(s, a).ledger) <==> !Overrules(s, a)
  {
    if a.WriteAward? {
      WriteIsStatusStep(s.ledger, s.calls[a.c]);
      assert Apply(s, a).ledger.awards[s.calls[a.c].award].status == TargetStatus(s.calls[a.c]);
    }
  }

  /** Awards keep their identity in every run. */
  lemma {:induction false} AwardsStay(states: seq<State>, acts: seq<Action>, i: nat, j: nat)
    requires IsRun(states, acts) && i <= j < |states|
    ensures SameAwards(states[i].ledger.awards, states[j].ledger.awards)
    decreases j
  {
    if i < j {
      assert StepAt(states, acts, j - 1);
      AwardsStay(states, acts, i, j - 1);
      StepKeepsAwards(states[j - 1], acts[j - 1]);
    }
  }

  /** Step `n` keeps to the life cycle. */
  ghost predicate KeptAt(states: seq<State>, n: nat)
    requires n + 1 < |states|
  {
    Advances(states[n].ledger, states[n + 1].ledger)
  }

  /** Every step of a run keeps to the life cycle exactly if no write overrules a status set since its read. */
  lemma LifeCycleIsKeptExactlyWhen(states: seq<State>, acts: seq<Action>)
    requires IsRun(states, acts)
    ensures (forall n | 0 <= n < |acts| :: KeptAt(states, n)) <==> forall n | 0 <= n < |acts| ::
        !OverrulesAt(states, acts, n)
  {
    forall n | 0 <= n < |acts|
      ensures KeptAt(states, n) <==> !OverrulesAt(states, acts, n)
    {
      assert StepAt(states, acts, n);
      StepKeepsAwards(states[n], acts[n]);
    }
  }

  /** Unless a write overrules one, PAID and CANCELLED are final, and REJECTED can only become CANCELLED. */
  lemma {:induction false} AwardsOnlyAdvance(states: seq<State>, acts: seq<Action>, i: nat, j: nat, k: nat)
    requires IsRun(states, acts) && i <= j < |states| && k < |states[i].ledger.awards|
    requires forall n | i <= n < j :: !OverrulesAt(states, acts, n)
    ensures k < |states[j].ledger.awards|
    ensures var before, after := states[i].ledger.awards[k].status, states[j].ledger.awards[k].status;
            && (before == Paid || before == Cancelled ==> after == before)
            && (before == Rejected ==> after == Rejected || after == Cancelled)
    decreases j
  {
    if i < j {
      assert StepAt(states, acts, j - 1);
      AwardsOnlyAdvance(states, acts, i, j - 1, k);
      assert !OverrulesAt(states, acts, j - 1);
      StepKeepsAwards(states[j - 1], acts[j - 1]);
    }
  }

  /** No two calls on one award are under way. */
  ghost predicate Alone(s: State) {
    forall c, d | c in s.calls && d in s.calls && c != d :: s.calls[c].award != s.calls[d].award
  }

  /** The checks of all calls under way still hold. */
  ghost predicate ChecksHold(s: State) {
    forall c | c in s.calls :: Check(s.ledger.awards, s.calls[c]).Done?
  }

  lemma StepKeepsCheck(s: State, a: Action, c: nat)
    requires Enabled(s, a) && c in Apply(s, a).calls
    requires c in s.calls ==>
        Check(s.ledger.awards, s.calls[c]).Done? && (a.WriteAward? ==> s.calls[a.c].award != s.calls[c].award)
    ensures Check(Apply(s, a).ledger.awards, Apply(s, a).calls[c]).Done?
  {
    assert forall k | 0 <= k < |s.ledger.awards| ::
        (a.WriteAward? ==> k != s.calls[a.c].award) ==> Apply(s, a).ledger.awards[k] == s.ledger.awards[k];
  }

  lemma StepKeepsChecks(s: State, a: Action)
    requires Enabled(s, a) && Alone(s) && ChecksHold(s)
    ensures ChecksHold(Apply(s, a))
  {
    forall c | c in Apply(s, a).calls
      ensures Check(Apply(s, a).ledger.awards, Apply(s, a).calls[c]).Done?
    {
      StepKeepsCheck(s, a, c);
    }
  }

  /**
   While calls on one award never overlap, no write is stale, so conservation and the life cycle are unconditional.
   */
  lemma {:induction false} AloneIsSafe(states: seq<State>, acts: seq<Action>, i: nat)
    requires IsRun(states, acts) && i < |states| && forall n | 0 <= n < |states| :: Alone(states[n])
    ensures ChecksHold(states[i])
    ensures i < |acts| ==> !OverrulesAt(states, acts, i) && forall user :: !HitsPaid(states, acts, i, user)
  {
    if i > 0 {
      assert StepAt(states, acts, i - 1);
      AloneIsSafe(states, acts, i - 1);
      StepKeepsChecks(states[i - 1], acts[i - 1]);
    }
    assert i < |acts| ==> StepAt(states, acts, i);
  }

  /** Two approvals that read before either writes credit an award twice. */
  lemma OverlappingApprovalsCreditTwice(v: Version, user: string) returns (states: seq<State>, acts: seq<Action>)
    requires v.prizeType.Balance? && v.prizeValue > 0.0
    ensures IsRun(states, acts) && |states| == 5
    ensures BonusOf(states[4].ledger, user) == BonusOf(states[0].ledger, user) + 2.0 * v.prizeValue
    ensures Credits(states[4].ledger.awards, user) == Credits(states[0].ledger.awards, user) + v.prizeValue
  {
    var award := Award(Key(v.id, user), 1, v.prizeType, v.prizeValue, RedemptionRequested, false);
    var s0 := State(Ledger([award], map[Key(v.id, user) := Progress(v.cpaPerPrize, 1)], map[]), map[], map[]);
    acts := [ReadAward(0, ApproveCall(0)), ReadAward(1, ApproveCall(0)), WriteAward(0), WriteAward(1)];
    var s1 := Apply(s0, acts[0]);
    var s2 := Apply(s1, acts[1]);
    var s3 := Apply(s2, acts[2]);
    var s4 := Apply(s3, acts[3]);
    states := [s0, s1, s2, s3, s4];
    assert BonusOf(s3.ledger, user) == v.prizeValue && s3.ledger.awards[0].status == Paid;
    assert Credits(s0.ledger.awards, user) == 0.0;
    assert s4.ledger.awards == [award.(status := Paid, credited := true)];
    assert s4.ledger.awards[1..] == [];
  }

  /** A cancelled award is never reissued: no other award ever has its version, user and cycle. */
  lemma CancelledIsNotReissued(states: seq<State>, acts: seq<Action>, i: nat, j: nat, k: nat, m: nat)
    requires IsRun(states, acts) && i <= j < |states| && Contiguous(states[0].ledger)
    requires k < |states[i].ledger.awards| && states[i].ledger.awards[k].status == Cancelled
    requires m < |states[j].ledger.awards| && m != k
    ensures states[j].ledger.awards[m].key != states[i].ledger.awards[k].key ||
            states[j].ledger.awards[m].cycle != states[i].ledger.awards[k].cycle
  {
    AwardsStay(states, acts, i, j);
    CyclesAreNumberedAlways(states, acts, j);
  }

  // ----- Evaluations one after the other -----

  datatype Event = Evaluate(v: Version, user: string, total: int) | LifeCycle(call: Call)

  predicate ValidEvent(e: Event) {
    e.Evaluate? ==> e.v.cpaPerPrize >= 1
  }

  ghost predicate ValidHistory(events: seq<Event>) {
    forall i | 0 <= i < |events| :: ValidEvent(events[i])
  }

  function Happen(l: Ledger, e: Event): Ledger
    requires ValidEvent(e)
  {
    match e
    case Evaluate(v, user, total) => Commit(l, v, user, total, Generated(l, Key(v.id, user))).0
    case LifeCycle(call) => Perform(l, call).0
  }

  ghost function Replay(events: seq<Event>): Ledger
    requires ValidHistory(events)
  {
    if events == [] then Ledger([], map[], map[])
    else Happen(Replay(events[..|events| - 1]), events[|events| - 1])
  }

  /** The highest number of prizes any total seen so far was worth, and at least 0. */
  ghost function RunningMax(events: seq<Event>, key: Key): int
    requires ValidHistory(events)
  {
    if events == [] then 0
    else
      var before := RunningMax(events[..|events| - 1], key);
      var e := events[|events| - 1];
      if e.Evaluate? && Key(e.v.id, e.user) == key && Earned(e.v, e.total) > before
      then Earned(e.v, e.total) else before
  }

  lemma HappenKeepsContiguous(l: Ledger, e: Event)
    requires ValidEvent(e) && Contiguous(l)
    ensures Contiguous(Happen(l, e))
  {
    if e.Evaluate? {
      CommitKeepsContiguous(l, e.v, e.user, e.total, Generated(l, Key(e.v.id, e.user)));
    } else if Check(l.awards, e.call).Done? {
      WriteKeepsCycles(l, e.call);
      SameCyclesKeepContiguous(l, Happen(l, e));
    }
  }

  lemma HappenRaisesToEarned(l: Ledger, e: Event, key: Key)
    requires ValidEvent(e) && Contiguous(l)
    ensures Generated(Happen(l, e), key) ==
            if e.Evaluate? && Key(e.v.id, e.user) == key && Earned(e.v, e.total) > Generated(l, key)
            then Earned(e.v, e.total) else Generated(l, key)
  {
    if e.Evaluate? {
      var already := Generated(l, Key(e.v.id, e.user));
      if already < Earned(e.v, e.total) {
        StaleCommitCollides(l, e.v, e.user, e.total, already);
      }
    } else if Check(l.awards, e.call).Done? {
      WriteKeepsCycles(l, e.call);
    }
  }

  lemma HappenCounts(l: Ledger, e: Event, key: Key)
    requires ValidEvent(e) && Contiguous(l)
    ensures CountAwards(Happen(l, e).awards, key) - CountAwards(l.awards, key) ==
        Generated(Happen(l, e), key) - Generated(l, key)
  {
    if e.Evaluate? {
      CommitCounts(l, e.v, e.user, e.total, Generated(l, Key(e.v.id, e.user)), key);
    } else if Check(l.awards, e.call).Done? {
      WriteKeepsCycles(l, e.call);
      CountSameKeys(l.awards, Happen(l, e).awards, key);
    }
  }

  /** Awards ever generated equal the running maximum: falling totals remove none, cancellations bring none back. */
  lemma {:induction false} GeneratedIsRunningMax(events: seq<Event>, key: Key)
    requires ValidHistory(events)
    ensures Contiguous(Replay(events)) && Generated(Replay(events), key) == RunningMax(events, key)
    ensures CountAwards(Replay(events).awards, key) == RunningMax(events, key)
  {
    if events != [] {
      var before := events[..|events| - 1];
      GeneratedIsRunningMax(before, key);
      HappenKeepsContiguous(Replay(before), events[|events| - 1]);
      HappenRaisesToEarned(Replay(before), events[|events| - 1], key);
      HappenCounts(Replay(before), events[|events| - 1], key);
    }
  }

  /** Some evaluation of the key had a total that pays for `n` prizes in full. */
  ghost predicate Justified(events: seq<Event>, key: Key, n: int) {
    exists i | 0 <= i < |events| ::
      events[i].Evaluate? && Key(events[i].v.id, events[i].user) == key
          && events[i].total >= n * events[i].v.cpaPerPrize
  }

  lemma {:induction false} JustifiedIsUpToMax(events: seq<Event>, key: Key, n: int)
    requires ValidHistory(events) && n >= 1
    ensures Justified(events, key, n) <==> n <= RunningMax(events, key)
  {
    if events != [] {
      var before, e := events[..|events| - 1], events[|events| - 1];
      JustifiedIsUpToMax(before, key, n);
      if e.Evaluate? {
        EarnedAtLeast(e.v, e.total, n);
      }
      assert Justified(events, key, n) <==>
             Justified(before, key, n)
                 || (e.Evaluate? && Key(e.v.id, e.user) == key && e.total >= n * e.v.cpaPerPrize) by {
        assert events == before + [e];
        if Justified(before, key, n) {
          var i :| 0 <= i < |before| && before[i].Evaluate? && Key(before[i].v.id, before[i].user) == key
                   && before[i].total >= n * before[i].v.cpaPerPrize;
          assert events[i] == before[i];
        }
      }
    }
  }

  /**
   The number of awards of a key is the greatest that some total has paid for in full: n totals of n prizes, never more.
   */
  lemma AwardsAreTheGreatestPaidFor(events: seq<Event>, key: Key)
    requires ValidHistory(events)
    ensures var n := CountAwards(Replay(events).awards, key);
            (n == 0 || Justified(events, key, n)) && forall m | m > n :: !Justified(events, key, m)
  {
    GeneratedIsRunningMax(events, key);
    var n := RunningMax(events, key);
    if n >= 1 {
      JustifiedIsUpToMax(events, key, n);
    }
    forall m | m > n
      ensures !Justified(events, key, m)
    {
      JustifiedIsUpToMax(events, key, m);
    }
  }

  /** Step `n` ends an evaluation that generates award `k`, of its own version, user and prize. */
  ghost predicate GeneratedAt(states: seq<State>, acts: seq<Action>, n: nat, a: Award) {
    StepAt(states, acts, n) && acts[n].Finish? &&
    var x := states[n].running[acts[n].e];
    a.key == Key(x.v.id, x.user) && a.prizeType == x.v.prizeType && a.prizeValue == x.v.prizeValue
    && x.already < a.cycle && a.cycle * x.v.cpaPerPrize <= x.total
  }

  /**
   Every award that appears in a run carries the prize of the version that was evaluated, and its total had paid for it.
   */
  lemma {:induction false} AwardsCarryTheirPrize(states: seq<State>, acts: seq<Action>, i: nat, k: nat) returns (n: nat)
    requires IsRun(states, acts) && i < |states| && |states[0].ledger.awards| <= k < |states[i].ledger.awards|
    ensures n < i && GeneratedAt(states, acts, n, states[i].ledger.awards[k])
  {
    assert i > 0 && StepAt(states, acts, i - 1);
    var s, a := states[i - 1], acts[i - 1];
    if k < |s.ledger.awards| {
      n := AwardsCarryTheirPrize(states, acts, i - 1, k);
      StepKeepsAwards(s, a);
    } else {
      n := i - 1;
      NewAwards(s, a, k);
    }
  }

  lemma NewAwards(s: State, a: Action, k: nat)
    requires Enabled(s, a) && |s.ledger.awards| <= k < |Apply(s, a).ledger.awards|
    ensures a.Finish?
    ensures var x, award := s.running[a.e], Apply(s, a).ledger.awards[k];
            && award.key == Key(x.v.id, x.user) && award.prizeType == x.v.prizeType
            && award.prizeValue == x.v.prizeValue
            && x.already < award.cycle && award.cycle * x.v.cpaPerPrize <= x.total
  {
    if a.WriteAward? {
      WriteKeepsCycles(s.ledger, s.calls[a.c]);
    }
    if a.Finish? {
      var x := s.running[a.e];
      CommitAppends(s.ledger, x.v, x.user, x.total, x.already);
      EarnedAtLeast(x.v, x.total, Apply(s, a).ledger.awards[k].cycle);
    }
  }
}
