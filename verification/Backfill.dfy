/**
 One cycle of the per-minute scheduler: it reads the pool once and then calls `tryAssign` for every
 pending request, and all these calls share and mutate the same array of row objects.

 Other processes keep writing while a call waits.  A `Call` fixes what one call gets to see: whether
 the lock was granted, the database at each of its awaits, and where an exception is thrown.
 */
module Backfill {
  import opened Basics
  import opened LinkPool

  class PoolRow {
    const rowIndex: nat
    const id: string
    const link: string
    const ids: Option<(string, string)>
    var status: string
    var email: string

    constructor (row: Row)
      ensures View() == row
    {
      rowIndex, id, link, ids := row.rowIndex, row.id, row.link, row.ids;
      status, email := row.status, row.email;
    }

    function View(): Row
      reads this
    {
      Row(rowIndex, id, link, ids, status, email)
    }
  }

  /** The objects of the shared array are distinct and currently hold these values. */
  ghost predicate Shows(rows: seq<PoolRow>, views: seq<Row>)
    reads rows
  {
    && |rows| == |views|
    && (forall p, q | 0 <= p < q < |rows| :: rows[p] != rows[q])
    && (forall p | 0 <= p < |rows| :: rows[p].View() == views[p])
  }

  /** Awaits 0..3 read the request, the commission, the user and the existing link; 4 + 2j and 5 + 2j
      are the pre-check and the transaction of candidate j. */
  datatype Call = Call(lockGranted: bool, seen: nat -> Db, hint: nat -> nat, throwsAt: nat -> bool)

  /** The result of a call, and the position of the row it consumed. */
  datatype Verdict = Verdict(result: Result, position: Option<nat>)

  // ----- tryAssign, on values -----

  predicate SomeFree(family: Family, rows: seq<Row>) {
    exists p | 0 <= p < |rows| :: IsFree(family, rows[p])
  }

  function Skip(reason: Reason): Verdict {
    Verdict(NotAssigned(reason), None)
  }

  /** Candidate `j`: the call's result if it ends here, or `None` if the loop moves on. */
  function Probe(call: Call, job: Job, applyDefault: bool, own: Option<nat>, email: string, row: Row,
                 j: nat): Option<Result> {
    var target := TargetOf(job.family, row);
    if target.None? then None
    else if call.throwsAt(4 + 2 * j) then Some(Threw)
    else if Conflicts(call.seen(4 + 2 * j), target.value.campaign, own) then None
    else if call.throwsAt(5 + 2 * j) then Some(Threw)
    else
      match Transact(call.seen(5 + 2 * j), job, applyDefault, row, target.value, call.hint(5 + 2 * j))
      case IndexCollision => None
      case RequestMissing => Some(Threw)
      case _ => Some(Assigned(target.value.campaign, target.value.affiliateId, row.link, row.rowIndex, email))
  }

  function VerdictAt(result: Result, p: nat): Verdict {
    Verdict(result, if result.Assigned? then Some(p) else None)
  }

  /** The candidate loop from row `p` on, where `j` candidates have been tried. */
  function Scan(call: Call, job: Job, applyDefault: bool, own: Option<nat>, email: string, rows: seq<Row>, p: nat,
                j: nat): Verdict
    decreases |rows| - p
  {
    if p >= |rows| then Skip(AllConflicts)
    else if !IsFree(job.family, rows[p]) then Scan(call, job, applyDefault, own, email, rows, p + 1, j)
    else
      match Probe(call, job, applyDefault, own, email, rows[p], j)
      case None => Scan(call, job, applyDefault, own, email, rows, p + 1, j + 1)
      case Some(result) => VerdictAt(result, p)
  }

  /** Decides a call up to the candidate loop: a verdict, or `None` and the default flag. */
  function Admit(call: Call, job: Job): (Option<Verdict>, bool) {
    if !call.lockGranted then (Some(Skip(LockBusy)), false)
    else if call.throwsAt(0) then (Some(Verdict(Threw, None)), false)
    else
      var requests := call.seen(0).requests;
      if job.request !in requests then (Some(Skip(RequestNotFound)), false)
      else if !requests[job.request].status.Pending? then (Some(Skip(AlreadyFulfilled)), false)
      else if job.family.Esportiva? then (None, false)
      else if call.throwsAt(1) then (Some(Verdict(Threw, None)), false)
      else
        var has := HasCommission(call.seen(1), job.user, job.house);
        if !has && job.default.None? then (Some(Skip(CommissionNotSet)), false) else (None, !has)
  }

  function TryAssignSpec(call: Call, job: Job, rows: seq<Row>): Verdict {
    var (verdict, applyDefault) := Admit(call, job);
    if verdict.Some? then verdict.value
    else if !SomeFree(job.family, rows) then Skip(PoolEmpty)
    else if call.throwsAt(2) then Verdict(Threw, None)
    else if job.user !in call.seen(2).emails then Skip(AllConflicts)
    else if call.throwsAt(3) then Verdict(Threw, None)
    else
      Scan(call, job, applyDefault, FindLink(call.seen(3), job.user, job.house, call.hint(3)),
           call.seen(2).emails[job.user], rows, 0, 0)
  }

  /** The in-memory rows after a call. */
  function Flip(rows: seq<Row>, v: Verdict): seq<Row> {
    if v.position.Some? && v.result.Assigned? && v.position.value < |rows| then
      rows[v.position.value := rows[v.position.value].(status := MARKED_STATUS, email := v.result.email)]
    else rows
  }

  lemma {:induction false} ScanTakesFreeRow(call: Call, job: Job, applyDefault: bool, own: Option<nat>, email: string,
                                            rows: seq<Row>, p: nat, j: nat)
    ensures var v := Scan(call, job, applyDefault, own, email, rows, p, j);
            && (v.result.Assigned? <==> v.position.Some?)
            && (v.position.Some? ==>
                  v.position.value < |rows| && IsFree(job.family, rows[v.position.value])
                  && v.result.rowIndex == rows[v.position.value].rowIndex)
            && v.result != NotAssigned(PoolEmpty) && v.result != NotAssigned(SheetReadFailed)
    decreases |rows| - p
  {
    if p < |rows| {
      if IsFree(job.family, rows[p]) {
        ScanTakesFreeRow(call, job, applyDefault, own, email, rows, p + 1, j + 1);
      } else {
        ScanTakesFreeRow(call, job, applyDefault, own, email, rows, p + 1, j);
      }
    }
  }

  /** A call succeeds exactly if it consumes a row; that row was free, and an empty pool means no row is. */
  predicate TakesFreeRow(family: Family, rows: seq<Row>, v: Verdict) {
    && (v.result.Assigned? <==> v.position.Some?)
    && (v.position.Some? ==>
          v.position.value < |rows| && IsFree(family, rows[v.position.value])
          && v.result.rowIndex == rows[v.position.value].rowIndex)
    && (v.result == NotAssigned(PoolEmpty) ==> !SomeFree(family, rows))
    && v.result != NotAssigned(SheetReadFailed)
  }

  lemma TryAssignTakesFreeRow(call: Call, job: Job, rows: seq<Row>)
    ensures TakesFreeRow(job.family, rows, TryAssignSpec(call, job, rows))
  {
    var (verdict, applyDefault) := Admit(call, job);
    if verdict.None? && job.user in call.seen(2).emails {
      ScanTakesFreeRow(call, job, applyDefault, FindLink(call.seen(3), job.user, job.house, call.hint(3)),
                       call.seen(2).emails[job.user], rows, 0, 0);
    }
  }

  // ----- tryAssign, in place -----

  /** The body of the candidate loop.  A committed row is overwritten in memory for the rest of the batch. */
  method TryCandidate(call: Call, job: Job, applyDefault: bool, own: Option<nat>, email: string,
                      rows: seq<PoolRow>, p: nat, j: nat, ghost views: seq<Row>)
    returns (result: Option<Result>)
    requires Shows(rows, views) && p < |rows|
    modifies rows
    ensures result == Probe(call, job, applyDefault, own, email, views[p], j)
    ensures Shows(rows, if result.Some? then Flip(views, VerdictAt(result.value, p)) else views)
  {
    var row := rows[p];
    var target := TargetOf(job.family, row.View());
    if target.None? {
      return None;
    }
    if call.throwsAt(4 + 2 * j) {
      return Some(Threw);
    }
    if Conflicts(call.seen(4 + 2 * j), target.value.campaign, own) {
      return None;
    }
    if call.throwsAt(5 + 2 * j) {
      return Some(Threw);
    }
    match Transact(call.seen(5 + 2 * j), job, applyDefault, row.View(), target.value, call.hint(5 + 2 * j)) {
      case IndexCollision => return None;
      case RequestMissing => return Some(Threw);
      case _ =>
        row.status, row.email := MARKED_STATUS, email;
        return Some(Assigned(target.value.campaign, target.value.affiliateId, row.link, row.rowIndex, email));
    }
  }

  method TryCandidates(call: Call, job: Job, applyDefault: bool, own: Option<nat>, email: string,
                       rows: seq<PoolRow>, ghost views: seq<Row>) returns (result: Result)
    requires Shows(rows, views)
    modifies rows
    ensures var v := Scan(call, job, applyDefault, own, email, views, 0, 0);
            result == v.result && Shows(rows, Flip(views, v))
  {
    var j := 0;
    for p := 0 to |rows|
      invariant Shows(rows, views)
      invariant Scan(call, job, applyDefault, own, email, views, 0, 0) ==
          Scan(call, job, applyDefault, own, email, views, p, j)
    {
      if IsFree(job.family, rows[p].View()) {
        var outcome := TryCandidate(call, job, applyDefault, own, email, rows, p, j, views);
        if outcome.Some? {
          return outcome.value;
        }
        j := j + 1;
      }
    }
    return NotAssigned(AllConflicts);
  }

  method TryAssign(call: Call, job: Job, rows: seq<PoolRow>, ghost views: seq<Row>) returns (result: Result)
    requires Shows(rows, views)
    modifies rows
    ensures var v := TryAssignSpec(call, job, views); result == v.result && Shows(rows, Flip(views, v))
  {
    var (verdict, applyDefault) := Admit(call, job);
    if verdict.Some? {
      return verdict.value.result;
    }
    var candidates := AnyFree(job.family, rows, views);
    if !candidates {
      return NotAssigned(PoolEmpty);
    }
    if call.throwsAt(2) {
      return Threw;
    }
    if job.user !in call.seen(2).emails {
      return NotAssigned(AllConflicts);
    }
    var email := call.seen(2).emails[job.user];
    if call.throwsAt(3) {
      return Threw;
    }
    var own := FindLink(call.seen(3), job.user, job.house, call.hint(3));
    result := TryCandidates(call, job, applyDefault, own, email, rows, views);
  }

  /** `rows.filter(...)` has an element. */
  method AnyFree(family: Family, rows: seq<PoolRow>, ghost views: seq<Row>) returns (any: bool)
    requires Shows(rows, views)
    ensures any == SomeFree(family, views)
  {
    for p := 0 to |rows|
      invariant forall q | 0 <= q < p :: !IsFree(family, views[q])
    {
      if IsFree(family, rows[p].View()) {
        return true;
      }
    }
    return false;
  }

  // ----- The cycle, on values -----

  datatype PendingRequest = PendingRequest(id: string, user: string, cpa: real, revshare: Option<real>)

  datatype Mark = Mark(request: nat, position: nat, rowIndex: nat, email: string)

  /** The state of the loop: the rows in memory, the rows to mark in one batch, and the statistics. */
  datatype Tally = Tally(rows: seq<Row>, marks: seq<Mark>, skipped: nat, reasons: map<Reason, nat>)

  function JobOf(family: Family, house: House, p: PendingRequest): Job {
    Job(family, house, p.user, p.id, Some(Commission(p.cpa, if p.revshare.Some? then p.revshare.value else 0.0)))
  }

  function Count(reasons: map<Reason, nat>, reason: Reason): map<Reason, nat> {
    reasons[reason := (if reason in reasons then reasons[reason] else 0) + 1]
  }

  function Record(t: Tally, i: nat, v: Verdict): Tally {
    match v.result
    case Assigned(_, _, _, rowIndex, email) =>
      var position := if v.position.Some? then v.position.value else 0;
      t.(rows := Flip(t.rows, v), marks := t.marks + [Mark(i, position, rowIndex, email)])
    case NotAssigned(reason) => t.(skipped := t.skipped + 1, reasons := Count(t.reasons, reason))
    case Threw => t.(skipped := t.skipped + 1)
  }

  function Init(vs: seq<Verdict>): seq<Verdict>
    requires vs != []
  {
    vs[..|vs| - 1]
  }

  function Last(vs: seq<Verdict>): Verdict
    requires vs != []
  {
    vs[|vs| - 1]
  }

  /** The tally after the calls for the first |vs| requests returned `vs`. */
  function After(rows: seq<Row>, vs: seq<Verdict>): Tally {
    if vs == [] then Tally(rows, [], 0, map[]) else Record(After(rows, Init(vs)), |vs| - 1, Last(vs))
  }

  /** Everything that fixes the course of one cycle apart from the rows. */
  datatype Cycle = Cycle(family: Family, house: House, calls: seq<Call>, pending: seq<PendingRequest>)

  predicate WellFormed(c: Cycle) {
    |c.calls| == |c.pending|
  }

  /** `vs` are the verdicts of the first |vs| calls, each on the rows the earlier ones left behind. */
  ghost predicate Follows(c: Cycle, rows: seq<Row>, vs: seq<Verdict>)
    requires WellFormed(c)
  {
    vs == [] || (
      && |vs| <= |c.pending| && Follows(c, rows, Init(vs))
      && Last(vs) == TryAssignSpec(c.calls[|vs| - 1], JobOf(c.family, c.house, c.pending[|vs| - 1]),
                                   After(rows, Init(vs)).rows))
  }

  predicate EndsCycle(result: Result) {
    result == NotAssigned(PoolEmpty) || result == NotAssigned(SheetReadFailed)
  }

  /** The calls a cycle makes: up to the first empty pool, or all of them. */
  ghost predicate StopsAt(c: Cycle, vs: seq<Verdict>) {
    && |vs| <= |c.pending|
    && (forall i | 0 <= i < |vs| - 1 :: !EndsCycle(vs[i].result))
    && (|vs| < |c.pending| ==> vs != [] && EndsCycle(Last(vs).result))
  }

  // ----- The cycle, in place -----

  function Entries(marks: seq<Mark>): seq<(nat, string)> {
    seq(|marks|, k requires 0 <= k < |marks| => (marks[k].rowIndex, marks[k].email))
  }

  /** The loop's variables show a tally. */
  ghost predicate Tallied(t: Tally, toMark: seq<(nat, string)>, skipped: nat, reasonCounts: map<Reason, nat>) {
    toMark == Entries(t.marks) && skipped == t.skipped && reasonCounts == t.reasons
  }

  lemma OneMoreCall(c: Cycle, rows: seq<Row>, vs: seq<Verdict>, v: Verdict)
    requires WellFormed(c) && |vs| < |c.pending| && Follows(c, rows, vs)
    requires v == TryAssignSpec(c.calls[|vs|], JobOf(c.family, c.house, c.pending[|vs|]), After(rows, vs).rows)
    ensures Follows(c, rows, vs + [v]) && After(rows, vs + [v]) == Record(After(rows, vs), |vs|, v)
  {
    assert Init(vs + [v]) == vs;
  }

  /** Before call `i` of the cycle, `t` is the tally of the calls made, none of which has ended it. */
  ghost predicate Underway(c: Cycle, rows: seq<Row>, vs: seq<Verdict>, t: Tally, i: nat)
    requires WellFormed(c)
  {
    && |vs| == i <= |c.pending| && Follows(c, rows, vs) && t == After(rows, vs)
    && forall k | 0 <= k < i :: !EndsCycle(vs[k].result)
  }

  lemma CallMade(c: Cycle, rows: seq<Row>, vs: seq<Verdict>, t: Tally, i: nat, v: Verdict)
    requires WellFormed(c) && i < |c.pending| && Underway(c, rows, vs, t, i)
    requires v == TryAssignSpec(c.calls[i], JobOf(c.family, c.house, c.pending[i]), t.rows)
    ensures Follows(c, rows, vs + [v]) && Record(t, i, v) == After(rows, vs + [v])
    ensures EndsCycle(v.result) ==> StopsAt(c, vs + [v])
    ensures !EndsCycle(v.result) ==> Underway(c, rows, vs + [v], Record(t, i, v), i + 1)
  {
    OneMoreCall(c, rows, vs, v);
  }

  /** The tally's rows are flipped as the call says, and its variables follow the answer. */
  lemma CallTallied(t: Tally, i: nat, v: Verdict, toMark: seq<(nat, string)>, skipped: nat,
                    reasonCounts: map<Reason, nat>)
    requires Tallied(t, toMark, skipped, reasonCounts)
    ensures Record(t, i, v).rows == Flip(t.rows, v)
    ensures match v.result
            case Assigned(_, _, _, rowIndex, email) =>
              Tallied(Record(t, i, v), toMark + [(rowIndex, email)], skipped, reasonCounts)
            case NotAssigned(reason) => Tallied(Record(t, i, v), toMark, skipped + 1, Count(reasonCounts, reason))
            case Threw => Tallied(Record(t, i, v), toMark, skipped + 1, reasonCounts)
  {
  }

  /** `backfillPending` from the first call to the batch write. */
  method BackfillPending(c: Cycle, rows: seq<PoolRow>, ghost views: seq<Row>)
    returns (toMark: seq<(nat, string)>, skipped: nat, reasonCounts: map<Reason, nat>, ghost vs: seq<Verdict>)
    requires WellFormed(c) && Shows(rows, views)
    modifies rows
    ensures Follows(c, views, vs) && StopsAt(c, vs)
    ensures var t := After(views, vs);
            Shows(rows, t.rows) && Tallied(t, toMark, skipped, reasonCounts)
  {
    ghost var t := After(views, []);
    toMark, skipped, reasonCounts, vs := [], 0, map[], [];
    for i := 0 to |c.pending|
      invariant Underway(c, views, vs, t, i) && Shows(rows, t.rows)
      invariant Tallied(t, toMark, skipped, reasonCounts)
    {
      ghost var v := TryAssignSpec(c.calls[i], JobOf(c.family, c.house, c.pending[i]), t.rows);
      CallMade(c, views, vs, t, i, v);
      CallTallied(t, i, v, toMark, skipped, reasonCounts);
      var result := TryAssign(c.calls[i], JobOf(c.family, c.house, c.pending[i]), rows, t.rows);
      vs, t := vs + [v], Record(t, i, v);
      match result {
        case Assigned(_, _, _, rowIndex, email) =>
          toMark := toMark + [(rowIndex, email)];
        case NotAssigned(reason) =>
          skipped, reasonCounts := skipped + 1, Count(reasonCounts, reason);
          if reason == PoolEmpty || reason == SheetReadFailed {
            break;
          }
        case Threw =>
          skipped := skipped + 1;
      }
    }
  }

  // ----- What a cycle guarantees -----

  /** Every verdict either takes a row that is free at that moment or leaves the rows alone. */
  ghost predicate Sound(family: Family, rows: seq<Row>, vs: seq<Verdict>) {
    vs == [] || (Sound(family, rows, Init(vs)) && TakesFreeRow(family, After(rows, Init(vs)).rows, Last(vs)))
  }

  lemma {:induction false} FollowsIsSound(c: Cycle, rows: seq<Row>, vs: seq<Verdict>)
    requires WellFormed(c) && Follows(c, rows, vs)
    ensures Sound(c.family, rows, vs)
  {
    if vs != [] {
      FollowsIsSound(c, rows, Init(vs));
      TryAssignTakesFreeRow(c.calls[|vs| - 1], JobOf(c.family, c.house, c.pending[|vs| - 1]),
                            After(rows, Init(vs)).rows);
    }
  }

  ghost predicate DistinctMarks(t: Tally, n: nat) {
    && (forall k | 0 <= k < |t.marks| :: t.marks[k].request < n)
    && (forall k, l | 0 <= k < l < |t.marks| ::
          t.marks[k].position != t.marks[l].position && t.marks[k].request < t.marks[l].request)
  }

  /** A marked row was free before and is flipped now. */
  ghost predicate MarksFlip(family: Family, before: seq<Row>, t: Tally) {
    forall k | 0 <= k < |t.marks| ::
      var m := t.marks[k];
      && m.position < |before| == |t.rows| && IsFree(family, before[m.position])
      && m.rowIndex == before[m.position].rowIndex
      && t.rows[m.position] == before[m.position].(status := MARKED_STATUS, email := m.email)
  }

  predicate MarkedAt(marks: seq<Mark>, position: nat) {
    exists k | 0 <= k < |marks| :: marks[k].position == position
  }

  ghost predicate OthersUntouched(before: seq<Row>, t: Tally) {
    && |t.rows| == |before|
    && forall p | 0 <= p < |before| && !MarkedAt(t.marks, p) :: t.rows[p] == before[p]
  }

  lemma RecordKeepsMarks(family: Family, before: seq<Row>, t: Tally, i: nat, v: Verdict)
    requires DistinctMarks(t, i) && MarksFlip(family, before, t) && OthersUntouched(before, t)
    requires TakesFreeRow(family, t.rows, v)
    ensures DistinctMarks(Record(t, i, v), i + 1) && MarksFlip(family, before, Record(t, i, v))
  {
    if v.result.Assigned? {
      var p := v.position.value;
      assert forall k | 0 <= k < |t.marks| :: t.marks[k].position != p;
      assert !MarkedAt(t.marks, p);
    }
  }

  lemma RecordKeepsOthers(before: seq<Row>, t: Tally, i: nat, v: Verdict)
    requires OthersUntouched(before, t) && (v.result.Assigned? ==> v.position.Some?)
    ensures OthersUntouched(before, Record(t, i, v))
  {
    var t' := Record(t, i, v);
    forall p | 0 <= p < |before| && !MarkedAt(t'.marks, p)
      ensures t'.rows[p] == before[p]
    {
      assert forall k | 0 <= k < |t.marks| :: t.marks[k] == t'.marks[k];
      assert !MarkedAt(t.marks, p);
      assert v.result.Assigned? ==> t'.marks[|t.marks|].position == v.position.value;
    }
  }

  lemma {:induction false} MarksAreFlips(family: Family, rows: seq<Row>, vs: seq<Verdict>)
    requires Sound(family, rows, vs)
    ensures var t := After(rows, vs); DistinctMarks(t, |vs|) && MarksFlip(family, rows, t) && OthersUntouched(rows, t)
  {
    if vs != [] {
      MarksAreFlips(family, rows, Init(vs));
      RecordKeepsMarks(family, rows, After(rows, Init(vs)), |vs| - 1, Last(vs));
      RecordKeepsOthers(rows, After(rows, Init(vs)), |vs| - 1, Last(vs));
    }
  }

  predicate Marked(marks: seq<Mark>, rowIndex: nat) {
    exists k | 0 <= k < |marks| :: marks[k].rowIndex == rowIndex
  }

  /**
   One cycle gives each physical row to one request at most: the rows of `toMark` have pairwise distinct
   indices and are exactly the rows flipped in memory.  Each was free before the cycle and now shows the mark.
   */
  lemma CycleMarksExactlyTheFlippedRows(c: Cycle, rows: seq<Row>, vs: seq<Verdict>)
    requires WellFormed(c) && Follows(c, rows, vs)
    requires forall p, q | 0 <= p < q < |rows| :: rows[p].rowIndex != rows[q].rowIndex
    ensures var t := After(rows, vs);
            && (forall k, l | 0 <= k < l < |t.marks| ::
                  t.marks[k].rowIndex != t.marks[l].rowIndex && t.marks[k].request != t.marks[l].request)
            && MarksFlip(c.family, rows, t) && |t.rows| == |rows|
            && (forall m | m in t.marks ::
                  m.position < |rows| == |t.rows| && Unused(c.family, rows[m.position])
                  && t.rows[m.position].status == "marcado" && t.rows[m.position].email == m.email)
            && (forall p | 0 <= p < |rows| :: t.rows[p] != rows[p] <==> Marked(t.marks, rows[p].rowIndex))
  {
    FollowsIsSound(c, rows, vs);
    MarksAreFlips(c.family, rows, vs);
    var t := After(rows, vs);
    forall p | 0 <= p < |rows|
      ensures t.rows[p] != rows[p] <==> Marked(t.marks, rows[p].rowIndex)
    {
      if MarkedAt(t.marks, p) {
        var k :| 0 <= k < |t.marks| && t.marks[k].position == p;
        assert t.marks[k].rowIndex == rows[p].rowIndex;
      }
    }
  }

  lemma PrefixOfInit(vs: seq<Verdict>, n: nat)
    requires n < |vs|
    ensures Init(vs)[..n] == vs[..n]
  {
  }

  /** The course of a cycle is determined by its calls. */
  lemma {:induction false} FollowsIsDeterministic(c: Cycle, rows: seq<Row>, vs: seq<Verdict>, ws: seq<Verdict>)
    requires WellFormed(c) && Follows(c, rows, vs) && Follows(c, rows, ws) && |vs| <= |ws|
    ensures vs == ws[..|vs|]
    decreases |ws|
  {
    if |vs| < |ws| {
      FollowsIsDeterministic(c, rows, vs, Init(ws));
      PrefixOfInit(ws, |vs|);
    } else if vs != [] {
      FollowsIsDeterministic(c, rows, Init(vs), Init(ws));
      assert Init(vs) == Init(ws)[..|vs| - 1] == Init(ws);
      assert vs == Init(vs) + [Last(vs)] && ws == Init(ws) + [Last(ws)];
    }
  }

  lemma {:induction false} NothingAfterEmptyPool(family: Family, rows: seq<Row>, vs: seq<Verdict>, k: nat)
    requires Sound(family, rows, vs) && k < |vs| && EndsCycle(vs[k].result)
    ensures var t, t' := After(rows, vs[..k + 1]), After(rows, vs);
            t.marks == t'.marks && t.rows == t'.rows && !SomeFree(family, t'.rows)
    decreases |vs|
  {
    if k + 1 == |vs| {
      assert vs[..k + 1] == vs;
    } else {
      assert Init(vs)[..k + 1] == vs[..k + 1];
      NothingAfterEmptyPool(family, rows, Init(vs), k);
    }
  }

  /** Stopping at the first empty pool assigns the same rows to the same requests as running to the end. */
  lemma EarlyStopLosesNothing(c: Cycle, rows: seq<Row>, early: seq<Verdict>, full: seq<Verdict>)
    requires WellFormed(c) && Follows(c, rows, early) && StopsAt(c, early)
    requires Follows(c, rows, full) && |full| == |c.pending|
    ensures After(rows, early).marks == After(rows, full).marks && After(rows, early).rows == After(rows, full).rows
  {
    FollowsIsDeterministic(c, rows, early, full);
    if |early| < |full| {
      FollowsIsSound(c, rows, full);
      NothingAfterEmptyPool(c.family, rows, full, |early| - 1);
    } else {
      assert full[..|early|] == full;
    }
  }

  /** Every call is either a mark or counted as skipped. */
  lemma {:induction false} CountersAddUp(rows: seq<Row>, vs: seq<Verdict>)
    ensures |After(rows, vs).marks| + After(rows, vs).skipped == |vs|
  {
    if vs != [] {
      CountersAddUp(rows, Init(vs));
    }
  }

  // ----- What one call's answer means -----

  /** Another active link of the family carries the campaign that the row names. */
  ghost predicate Clashes(db: Db, family: Family, row: Row, own: Option<nat>) {
    exists i, campaign, affiliateId | 0 <= i < |db.links| && NamesTarget(family, row, campaign, affiliateId) ::
      db.links[i].active && db.links[i].campaign == campaign && own != Some(i)
  }

  /** Another active link of the house carries it when the transaction runs. */
  ghost predicate TakenMeanwhile(db: Db, job: Job, row: Row, hint: nat) {
    exists i, campaign, affiliateId | 0 <= i < |db.links| && NamesTarget(job.family, row, campaign, affiliateId) ::
      db.links[i].active && db.links[i].house == job.house && db.links[i].campaign == campaign
          && i != WrittenLink(db, job, hint)
  }

  /** As candidate `j` the row is of no use: no campaign in its link, in use, or taken by the time of the commit. */
  ghost predicate PassedOver(call: Call, job: Job, own: Option<nat>, row: Row, j: nat) {
    || (job.family == Betano && row.ids.None?)
    || Clashes(call.seen(4 + 2 * j), job.family, row, own)
    || TakenMeanwhile(call.seen(5 + 2 * j), job, row, call.hint(5 + 2 * j))
  }

  lemma ProbeMeans(call: Call, job: Job, applyDefault: bool, own: Option<nat>, email: string, row: Row, j: nat)
    ensures var result := Probe(call, job, applyDefault, own, email, row, j);
            && (result.None? ==> PassedOver(call, job, own, row, j))
            && (result.Some? && result.value.Assigned? ==>
                  && !Clashes(call.seen(4 + 2 * j), job.family, row, own)
                  && NamesTarget(job.family, row, result.value.campaign, result.value.affiliateId)
                  && result.value.link == row.link && result.value.rowIndex == row.rowIndex
                  && result.value.email == email)
            && (result.Some? ==> result.value.Assigned? || result.value.Threw?)
  {
    var target := TargetOf(job.family, row);
    if target.Some? {
      assert NamesTarget(job.family, row, target.value.campaign, target.value.affiliateId);
      OutcomeMeans(call.seen(5 + 2 * j), job, applyDefault, row, target.value, call.hint(5 + 2 * j));
    }
  }

  /** The scan takes the first row that is of use; unused rows before it were passed over. */
  ghost predicate FirstOfUse(call: Call, job: Job, own: Option<nat>, email: string, rows: seq<Row>, from: nat,
                             v: Verdict) {
    && (forall q | from <= q < |rows| && Unused(job.family, rows[q]) && (v.position.Some? ==> q < v.position.value)
        && !v.result.Threw? ::
          exists j: nat :: PassedOver(call, job, own, rows[q], j))
    && (v.result.Assigned? ==>
          && v.position.Some? && from <= v.position.value < |rows|
          && var row := rows[v.position.value];
             && Unused(job.family, row) && NamesTarget(job.family, row, v.result.campaign, v.result.affiliateId)
             && v.result.link == row.link && v.result.rowIndex == row.rowIndex && v.result.email == email
             && exists j: nat :: !Clashes(call.seen(4 + 2 * j), job.family, row, own))
    && (v.result.NotAssigned? ==> v.result.reason == AllConflicts)
  }

  lemma {:induction false} ScanTakesFirst(call: Call, job: Job, applyDefault: bool, own: Option<nat>, email: string,
                                          rows: seq<Row>, p: nat, j: nat)
    ensures FirstOfUse(call, job, own, email, rows, p, Scan(call, job, applyDefault, own, email, rows, p, j))
    decreases |rows| - p
  {
    if p < |rows| {
      ProbeMeans(call, job, applyDefault, own, email, rows[p], j);
      if !IsFree(job.family, rows[p]) {
        ScanTakesFirst(call, job, applyDefault, own, email, rows, p + 1, j);
      } else if Probe(call, job, applyDefault, own, email, rows[p], j).None? {
        ScanTakesFirst(call, job, applyDefault, own, email, rows, p + 1, j + 1);
      }
    }
  }

  /** What a call's answer says about what it has seen. */
  ghost predicate AnswerMeans(call: Call, job: Job, rows: seq<Row>, v: Verdict) {
    var first, known := call.seen(0).requests, call.seen(2).emails;
    var rated := HasBothRates(call.seen(1), job.user, job.house);
    match v.result
    case Assigned(_, _, _, _, email) =>
      && call.lockGranted && job.request in first && first[job.request].status == Pending
      && (job.family == Betano ==> rated || job.default.Some?)
      && job.user in known && email == known[job.user]
      && exists own :: FirstOfUse(call, job, own, email, rows, 0, v)
    case NotAssigned(LockBusy) => !call.lockGranted
    case NotAssigned(RequestNotFound) => job.request !in first
    case NotAssigned(AlreadyFulfilled) => job.request in first && first[job.request].status != Pending
    case NotAssigned(CommissionNotSet) => job.family == Betano && !rated && job.default.None?
    case NotAssigned(PoolEmpty) => forall row | row in rows :: !Unused(job.family, row)
    case NotAssigned(AllConflicts) =>
      job.user !in known || exists own :: FirstOfUse(call, job, own, known[job.user], rows, 0, v)
    case NotAssigned(SheetReadFailed) => false
    case Threw => true
  }

  /** Every answer of a call is given for its reason, and a success takes the first row that is of use. */
  lemma CallAnswers(call: Call, job: Job, rows: seq<Row>)
    ensures AnswerMeans(call, job, rows, TryAssignSpec(call, job, rows))
  {
    HasCommissionMeans(call.seen(1), job.user, job.house);
    var (verdict, applyDefault) := Admit(call, job);
    if verdict.None? && job.user in call.seen(2).emails {
      var own := FindLink(call.seen(3), job.user, job.house, call.hint(3));
      ScanTakesFirst(call, job, applyDefault, own, call.seen(2).emails[job.user], rows, 0, 0);
    }
    if verdict.None? && !SomeFree(job.family, rows) {
      forall row | row in rows
        ensures !Unused(job.family, row)
      {
        var p :| 0 <= p < |rows| && rows[p] == row;
        assert !IsFree(job.family, rows[p]);
      }
    }
  }

  // ----- What a cycle passes on and counts -----

  /** A cycle's call, if it writes a default, writes the rates of its own request, no revenue share counting as zero. */
  lemma CycleRates(c: Cycle, p: PendingRequest, db: Db, row: Row, target: Target, hint: nat)
    requires Transact(db, JobOf(c.family, c.house, p), true, row, target, hint).Committed?
    ensures var job := JobOf(c.family, c.house, p);
            var after, id := Transact(db, job, true, row, target, hint).db, WrittenLink(db, job, hint);
            && job.user == p.user && job.request == p.id && id < |after.links|
            && after.links[id].cpa == Some(p.cpa)
            && after.links[id].revshare == (if p.revshare.Some? then p.revshare else Some(0.0))
  {
    TransactDelivers(db, JobOf(c.family, c.house, p), true, row, target, hint);
  }

  function CountReason(vs: seq<Verdict>, reason: Reason): nat {
    if vs == [] then 0
    else CountReason(vs[..|vs| - 1], reason) + (if vs[|vs| - 1].result == NotAssigned(reason) then 1 else 0)
  }

  /** The statistics hold, reason by reason, how often it was given. */
  lemma {:induction false} ReasonsAreCounted(rows: seq<Row>, vs: seq<Verdict>, reason: Reason)
    ensures var reasons := After(rows, vs).reasons;
            (if reason in reasons then reasons[reason] else 0) == CountReason(vs, reason)
  {
    if vs != [] {
      ReasonsAreCounted(rows, Init(vs), reason);
    }
  }

  /** Mark by mark, the rows to mark in the sheet are those of the successful calls, with the e-mails they answered. */
  lemma {:induction false} MarksAreTheSuccesses(rows: seq<Row>, vs: seq<Verdict>, i: nat)
    requires i < |vs|
    ensures vs[i].result.Assigned? <==> exists m | m in After(rows, vs).marks :: m.request == i
    ensures forall m | m in After(rows, vs).marks && m.request == i ::
              vs[i].result.Assigned? && m.rowIndex == vs[i].result.rowIndex && m.email == vs[i].result.email
    ensures forall m | m in After(rows, vs).marks :: m.request < |vs|
    decreases |vs|
  {
    var before := After(rows, Init(vs));
    if |vs| > 1 {
      MarksAreTheSuccesses(rows, Init(vs), if i < |vs| - 1 then i else 0);
    }
    if i == |vs| - 1 && Last(vs).result.Assigned? {
      var marks := After(rows, vs).marks;
      assert marks[|marks| - 1] in marks;
    } else if i < |vs| - 1 && vs[i].result.Assigned? {
      var m :| m in before.marks && m.request == i;
      assert m in After(rows, vs).marks;
    }
  }
}
