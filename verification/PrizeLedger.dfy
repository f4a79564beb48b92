/**
 The award ledger of the CPA prize engine: awards, one progress row per (rule version, user), and the
 users' bonus balances, with the functions that say what each database transaction does to them.
 */
module PrizeLedger {

  datatype PrizeType = Balance | Physical | Other

  datatype Version = Version(id: string, cpaPerPrize: int, prizeType: PrizeType, prizeValue: real)

  datatype Status = Available | RedemptionRequested | Paid | Cancelled | Rejected

  datatype Key = Key(version: string, user: string)

  datatype Award = Award(key: Key, cycle: int, prizeType: PrizeType, prizeValue: real, status: Status, credited: bool)

  datatype Progress = Progress(total: int, generated: int)

  /** An award's identifier is its position; awards are never deleted. */
  datatype Ledger = Ledger(awards: seq<Award>, progress: map<Key, Progress>, bonus: map<string, real>)

  datatype Reply = Done | NotFound | Forbidden | Conflict

  // ----- Generation -----

  /** `Math.floor(total / cpaPerPrize)`: Euclidean and flooring division agree for a positive divisor. */
  function Earned(v: Version, total: int): int
    requires v.cpaPerPrize >= 1
  {
    total / v.cpaPerPrize
  }

  /** As many prizes as the total pays for in full. */
  lemma EarnedMeans(v: Version, total: int)
    requires v.cpaPerPrize >= 1
    ensures Earned(v, total) * v.cpaPerPrize <= total < (Earned(v, total) + 1) * v.cpaPerPrize
  {
  }

  lemma EarnedAtLeast(v: Version, total: int, n: int)
    requires v.cpaPerPrize >= 1
    ensures n <= Earned(v, total) <==> n * v.cpaPerPrize <= total
  {
    EarnedMeans(v, total);
    if n <= Earned(v, total) {
      ProductGrows(n, Earned(v, total), v.cpaPerPrize);
    } else {
      ProductGrows(Earned(v, total) + 1, n, v.cpaPerPrize);
    }
  }

  lemma ProductGrows(m: int, n: int, c: int)
    requires m <= n && c >= 1
    ensures m * c <= n * c
  {
    assert (n - m) * c >= 0;
  }

  function Generated(l: Ledger, key: Key): int {
    if key in l.progress then l.progress[key].generated else 0
  }

  function Fresh(v: Version, user: string, already: int, count: nat): seq<Award> {
    seq(count, i requires 0 <= i < count =>
      Award(Key(v.id, user), already + i + 1, v.prizeType, v.prizeValue, Available, false))
  }

  /** Some award occupies one of the cycles already + 1 .. earned: the unique constraint would fire. */
  predicate Taken(l: Ledger, key: Key, already: int, earned: int) {
    exists i | 0 <= i < |l.awards| :: l.awards[i].key == key && already < l.awards[i].cycle <= earned
  }

  /**
   The writing half of `generateForUser`, for a progress value `already` that was read some time before.
   Returns the new ledger and the number of awards generated.
   */
  function Commit(l: Ledger, v: Version, user: string, total: int, already: int): (Ledger, nat)
    requires v.cpaPerPrize >= 1
  {
    var key := Key(v.id, user);
    var earned := Earned(v, total);
    if earned <= already then
      (l.(progress := l.progress[key := if key in l.progress
          then l.progress[key].(total := total) else Progress(total, already)]), 0)
    else if Taken(l, key, already, earned) then (l, 0)
    else
      (l.(awards := l.awards + Fresh(v, user, already, earned - already),
          progress := l.progress[key := Progress(total, earned)]),
      earned - already)
  }

  /**
   What a transaction appends: available awards of the version's own prize, in consecutive cycles; nothing else but
   progress changes.
   */
  lemma CommitAppends(l: Ledger, v: Version, user: string, total: int, already: int)
    requires v.cpaPerPrize >= 1
    ensures var (after, count) := Commit(l, v, user, total, already);
            && |after.awards| == |l.awards| + count && after.awards[..|l.awards|] == l.awards && after.bonus == l.bonus
            && (forall k | |l.awards| <= k < |after.awards| ::
                  after.awards[k] ==
                  Award(Key(v.id, user), already + 1 + k - |l.awards|, v.prizeType, v.prizeValue, Available, false))
            && (count > 0 ==> (already + count) * v.cpaPerPrize <= total < (already + count + 1) * v.cpaPerPrize)
            && (after == l || (Key(v.id, user) in after.progress && after.progress[Key(v.id, user)].total == total))
            && (forall k | k != Key(v.id, user) :: (k in after.progress <==> k in l.progress)
                                                   && (k in l.progress ==> after.progress[k] == l.progress[k]))
  {
    var (_, count) := Commit(l, v, user, total, already);
    EarnedMeans(v, total);
    if count > 0 {
      assert already + count == Earned(v, total);
    }
  }

  // ----- The life cycle of an award -----

  /** A call of the user or of an administrator.  Each reads the award first and writes in a transaction later. */
  datatype Call =
    | RedeemCall(award: nat, user: string)
    | ApproveCall(award: nat)
    | RejectCall(award: nat)
    | CancelCall(award: nat)

  /** The statuses under which a call goes on. */
  predicate Admits(call: Call, status: Status) {
    match call
    case RedeemCall(_, _) => status == Available
    case ApproveCall(_) => status == RedemptionRequested
    case RejectCall(_) => status == RedemptionRequested
    case CancelCall(_) => status != Paid && status != Cancelled
  }

  function TargetStatus(call: Call): Status {
    match call
    case RedeemCall(_, _) => RedemptionRequested
    case ApproveCall(_) => Paid
    case RejectCall(_) => Rejected
    case CancelCall(_) => Cancelled
  }

  /** What the read decides. */
  function Check(awards: seq<Award>, call: Call): Reply {
    if call.award >= |awards| then NotFound
    else if call.RedeemCall? && awards[call.award].key.user != call.user then Forbidden
    else if !Admits(call, awards[call.award].status) then Conflict
    else Done
  }

  function BonusOf(l: Ledger, user: string): real {
    if user in l.bonus then l.bonus[user] else 0.0
  }

  predicate PaysOut(a: Award) {
    a.prizeType.Balance? && a.prizeValue > 0.0
  }

  /** The transaction, which does not look at the status again. */
  function Write(l: Ledger, call: Call): Ledger
    requires call.award < |l.awards|
  {
    var a := l.awards[call.award];
    if call.ApproveCall? then
      var bonus := if PaysOut(a) then l.bonus[a.key.user := BonusOf(l, a.key.user) + a.prizeValue] else l.bonus;
      l.(bonus := bonus, awards := l.awards[call.award := a.(status := Paid, credited := PaysOut(a))])
    else
      l.(awards := l.awards[call.award := a.(status := TargetStatus(call))])
  }

  /** Read and transaction with nothing in between. */
  function Perform(l: Ledger, call: Call): (Ledger, Reply) {
    var reply := Check(l.awards, call);
    (if reply.Done? then Write(l, call) else l, reply)
  }

  // ----- Cycles are numbered 1..n -----

  /** Award `i` belongs to `key` and has cycle `c`. */
  predicate IsCycle(l: Ledger, i: nat, key: Key, c: int) {
    i < |l.awards| && l.awards[i].key == key && l.awards[i].cycle == c
  }

  ghost predicate InRange(l: Ledger) {
    && (forall key | key in l.progress :: l.progress[key].generated >= 0)
    && (forall i | 0 <= i < |l.awards| :: 1 <= l.awards[i].cycle <= Generated(l, l.awards[i].key))
  }

  ghost predicate NoDuplicates(l: Ledger) {
    forall i, j | 0 <= i < j < |l.awards| :: l.awards[i].key == l.awards[j].key ==>
        l.awards[i].cycle != l.awards[j].cycle
  }

  ghost predicate HasCycle(l: Ledger, key: Key, c: int) {
    exists i: nat :: IsCycle(l, i, key, c)
  }

  ghost predicate NoGaps(l: Ledger) {
    forall key: Key, c: int :: 1 <= c <= Generated(l, key) ==> HasCycle(l, key, c)
  }

  /** Every (version, user) has exactly the cycles 1..n, where n is the stored number of awards. */
  ghost predicate Contiguous(l: Ledger) {
    InRange(l) && NoDuplicates(l) && NoGaps(l)
  }

  /** The transaction takes effect exactly if nothing was generated since the progress row was read. */
  lemma StaleCommitCollides(l: Ledger, v: Version, user: string, total: int, already: int)
    requires v.cpaPerPrize >= 1 && Contiguous(l)
    requires 0 <= already <= Generated(l, Key(v.id, user)) && already < Earned(v, total)
    ensures already < Generated(l, Key(v.id, user)) ==> Commit(l, v, user, total, already) == (l, 0)
    ensures already == Generated(l, Key(v.id, user)) ==>
              Commit(l, v, user, total, already).1 == Earned(v, total) - already &&
              Generated(Commit(l, v, user, total, already).0, Key(v.id, user)) == Earned(v, total)
  {
    var key := Key(v.id, user);
    if already < Generated(l, key) {
      assert HasCycle(l, key, already + 1);
      var i: nat :| IsCycle(l, i, key, already + 1);
      assert Taken(l, key, already, Earned(v, total));
    }
  }

  /** Generation appends: earlier awards stay, and new ones are the cycles that were missing. */
  lemma CommitKeepsContiguous(l: Ledger, v: Version, user: string, total: int, already: int)
    requires v.cpaPerPrize >= 1 && Contiguous(l) && 0 <= already <= Generated(l, Key(v.id, user))
    ensures Contiguous(Commit(l, v, user, total, already).0)
    ensures forall key :: Generated(l, key) <= Generated(Commit(l, v, user, total, already).0, key)
  {
    var key := Key(v.id, user);
    var earned := Earned(v, total);
    var l' := Commit(l, v, user, total, already).0;
    if already < earned {
      StaleCommitCollides(l, v, user, total, already);
      if l' != l {
        AppendKeepsContiguous(l, l', v, user, total, already);
      }
    } else {
      forall k: Key, c: int | 1 <= c <= Generated(l', k)
        ensures HasCycle(l', k, c)
      {
        assert HasCycle(l, k, c);
        var i: nat :| IsCycle(l, i, k, c);
        assert IsCycle(l', i, k, c);
      }
    }
  }

  lemma AppendKeepsContiguous(l: Ledger, l': Ledger, v: Version, user: string, total: int, already: int)
    requires v.cpaPerPrize >= 1 && Contiguous(l) && already == Generated(l, Key(v.id, user)) < Earned(v, total)
    requires l'.awards == l.awards + Fresh(v, user, already, Earned(v, total) - already)
    requires l'.progress == l.progress[Key(v.id, user) := Progress(total, Earned(v, total))]
    ensures Contiguous(l')
  {
    var n := |l.awards|;
    assert forall i | 0 <= i < |l'.awards| ::
        if i < n then l'.awards[i] == l.awards[i]
        else l'.awards[i].key == Key(v.id, user) && l'.awards[i].cycle == already + (i - n) + 1;
    assert NoDuplicates(l');
    forall k: Key, c: int | 1 <= c <= Generated(l', k)
      ensures HasCycle(l', k, c)
    {
      if k == Key(v.id, user) && c > already {
        assert IsCycle(l', n + (c - already - 1), k, c);
      } else {
        assert HasCycle(l, k, c);
        var i: nat :| IsCycle(l, i, k, c);
        assert IsCycle(l', i, k, c);
      }
    }
  }

  /** Nothing but statuses, credit flags and balances differ. */
  ghost predicate SameCycles(l: Ledger, l': Ledger) {
    && l'.progress == l.progress && |l'.awards| == |l.awards|
    && forall i | 0 <= i < |l.awards| :: l'.awards[i].key == l.awards[i].key && l'.awards[i].cycle == l.awards[i].cycle
  }

  lemma SameCyclesKeepContiguous(l: Ledger, l': Ledger)
    requires Contiguous(l) && SameCycles(l, l')
    ensures Contiguous(l')
  {
    forall k: Key, c: int | 1 <= c <= Generated(l', k)
      ensures HasCycle(l', k, c)
    {
      assert HasCycle(l, k, c);
      var i: nat :| IsCycle(l, i, k, c);
      assert IsCycle(l', i, k, c);
    }
  }

  /** Redemption, rejection, cancellation and approval never touch the numbering. */
  lemma WriteKeepsCycles(l: Ledger, call: Call)
    requires call.award < |l.awards|
    ensures SameCycles(l, Write(l, call))
  {
  }

  // ----- Counting awards -----

  function CountAwards(awards: seq<Award>, key: Key): nat {
    if awards == [] then 0 else (if awards[0].key == key then 1 else 0) + CountAwards(awards[1..], key)
  }

  lemma {:induction false} CountAppend(xs: seq<Award>, ys: seq<Award>, key: Key)
    ensures CountAwards(xs + ys, key) == CountAwards(xs, key) + CountAwards(ys, key)
  {
    if xs == [] {
      assert xs + ys == ys;
    } else {
      assert (xs + ys)[1..] == xs[1..] + ys;
      CountAppend(xs[1..], ys, key);
    }
  }

  lemma {:induction false} CountUniform(xs: seq<Award>, own: Key, key: Key)
    requires forall i | 0 <= i < |xs| :: xs[i].key == own
    ensures CountAwards(xs, key) == if own == key then |xs| else 0
  {
    if xs != [] {
      CountUniform(xs[1..], own, key);
    }
  }

  lemma {:induction false} CountSameKeys(xs: seq<Award>, ys: seq<Award>, key: Key)
    requires |xs| == |ys| && forall i | 0 <= i < |xs| :: xs[i].key == ys[i].key
    ensures CountAwards(xs, key) == CountAwards(ys, key)
  {
    if xs != [] {
      CountSameKeys(xs[1..], ys[1..], key);
    }
  }

  /** A transaction adds as many awards to each (version, user) as it adds to the stored number. */
  lemma CommitCounts(l: Ledger, v: Version, user: string, total: int, already: int, key: Key)
    requires v.cpaPerPrize >= 1 && Contiguous(l) && 0 <= already <= Generated(l, Key(v.id, user))
    ensures var l' := Commit(l, v, user, total, already).0;
            CountAwards(l'.awards, key) - CountAwards(l.awards, key) == Generated(l', key) - Generated(l, key)
  {
    var count := Earned(v, total) - already;
    if count > 0 {
      StaleCommitCollides(l, v, user, total, already);
      CountAppend(l.awards, Fresh(v, user, already, count), key);
      CountUniform(Fresh(v, user, already, count), Key(v.id, user), key);
    }
  }

  // ----- Bonus conservation -----

  /** What an award has added to the balance of `user`. */
  function CreditOf(a: Award, user: string): real {
    if a.key.user == user && a.status == Paid && PaysOut(a) then a.prizeValue else 0.0
  }

  function Credits(awards: seq<Award>, user: string): real {
    if awards == [] then 0.0 else CreditOf(awards[0], user) + Credits(awards[1..], user)
  }

  /** What the balance holds beyond the value of the user's paid balance awards, each counted once. */
  function Surplus(l: Ledger, user: string): real {
    BonusOf(l, user) - Credits(l.awards, user)
  }

  lemma {:induction false} CreditsAppend(xs: seq<Award>, ys: seq<Award>, user: string)
    ensures Credits(xs + ys, user) == Credits(xs, user) + Credits(ys, user)
  {
    if xs == [] {
      assert xs + ys == ys;
    } else {
      assert (xs + ys)[1..] == xs[1..] + ys;
      CreditsAppend(xs[1..], ys, user);
    }
  }

  lemma {:induction false} CreditsUpdate(xs: seq<Award>, i: nat, a: Award, user: string)
    requires i < |xs|
    ensures Credits(xs[i := a], user) == Credits(xs, user) - CreditOf(xs[i], user) + CreditOf(a, user)
  {
    assert xs == xs[..i] + [xs[i]] + xs[i + 1..];
    assert xs[i := a] == xs[..i] + [a] + xs[i + 1..];
    CreditsAppend(xs[..i] + [xs[i]], xs[i + 1..], user);
    CreditsAppend(xs[..i], [xs[i]], user);
    CreditsAppend(xs[..i] + [a], xs[i + 1..], user);
    CreditsAppend(xs[..i], [a], user);
  }

  lemma {:induction false} UnpaidCreditsNothing(xs: seq<Award>, user: string)
    requires forall a | a in xs :: a.status != Paid
    ensures Credits(xs, user) == 0.0
  {
    if xs != [] {
      UnpaidCreditsNothing(xs[1..], user);
    }
  }

  lemma CommitConserves(l: Ledger, v: Version, user: string, total: int, already: int, who: string)
    requires v.cpaPerPrize >= 1
    ensures Surplus(Commit(l, v, user, total, already).0, who) == Surplus(l, who)
  {
    var count := Earned(v, total) - already;
    if count > 0 {
      CreditsAppend(l.awards, Fresh(v, user, already, count), who);
      UnpaidCreditsNothing(Fresh(v, user, already, count), who);
    }
  }

  /**
   A write leaves the surplus alone unless it hits an award that was paid already; then its value is counted twice.
   */
  lemma WriteAddsToSurplus(l: Ledger, call: Call, who: string)
    requires call.award < |l.awards|
    ensures Surplus(Write(l, call), who) == Surplus(l, who) + CreditOf(l.awards[call.award], who)
  {
    CreditsUpdate(l.awards, call.award, Write(l, call).awards[call.award], who);
  }

  /** Later tables hold the earlier awards, but for statuses and credit flags. */
  ghost predicate SameAwards(before: seq<Award>, after: seq<Award>) {
    && |before| <= |after|
    && forall i | 0 <= i < |before| ::
        after[i].(status := before[i].status, credited := before[i].credited) == before[i]
  }

  /** The steps an award's status may take. */
  predicate StatusStep(before: Status, after: Status) {
    || after == before
    || (before == Available && after == RedemptionRequested)
    || (before == RedemptionRequested && (after == Paid || after == Rejected))
    || (before != Paid && after == Cancelled)
  }

  /** A write takes such a step exactly if its check still holds, or the status is already the one it sets. */
  lemma WriteIsStatusStep(l: Ledger, call: Call)
    requires call.award < |l.awards|
    ensures var status := l.awards[call.award].status;
            StatusStep(status, TargetStatus(call)) <==> Admits(call, status) || status == TargetStatus(call)
  {
  }

  // ----- The calls, in plain terms -----

  /** Who gets through: the owner with an available award; an administrator with a requested, or an unfinished one. */
  lemma GoesOnExactlyWhen(awards: seq<Award>, call: Call)
    ensures Check(awards, call) == Done <==>
            call.award < |awards| &&
            var a := awards[call.award];
            match call
            case RedeemCall(_, user) => a.key.user == user && a.status == Available
            case ApproveCall(_) => a.status == RedemptionRequested
            case RejectCall(_) => a.status == RedemptionRequested
            case CancelCall(_) => a.status in {Available, RedemptionRequested, Rejected}
    ensures Check(awards, call) == NotFound <==> call.award >= |awards|
    ensures Check(awards, call) == Forbidden <==>
            call.award < |awards| && call.RedeemCall? && awards[call.award].key.user != call.user
  {
  }

  /** What a write does: the status of one award, and with an approval of a balance prize its value to the owner. */
  lemma WriteMeans(l: Ledger, call: Call, who: string)
    requires call.award < |l.awards|
    ensures var a, after := l.awards[call.award], Write(l, call);
            && after.progress == l.progress && |after.awards| == |l.awards|
            && (forall i | 0 <= i < |l.awards| && i != call.award :: after.awards[i] == l.awards[i])
            && after.awards[call.award].status ==
               (match call case RedeemCall(_, _) => RedemptionRequested case ApproveCall(_) => Paid
                           case RejectCall(_) => Rejected case CancelCall(_) => Cancelled)
            && BonusOf(after, who) ==
               BonusOf(l, who) + (if call.ApproveCall? && a.key.user == who && a.prizeType == Balance
                                  && a.prizeValue > 0.0 then a.prizeValue else 0.0)
  {
  }
}
