/**
 The metric syncs: raw sheet rows are aggregated, upserted one by one, and every change that matters for
 balances is logged.  Two syncs share the rules: Betnacional and Betano Diário.  Money columns of the table
 and of the log hold two decimals; a day is the number of its date.
 */
module SyncHistory {
  import opened Basics

  // ----- Aggregation -----

  const BETNACIONAL := "betnacional"
  const BETANO_DIARIO := "betano-diario"

  datatype Key = Key(house: string, campaign: string, date: int)

  datatype MetricsRow = MetricsRow(campaign: string, date: int, clicks: int, registrations: int, ftds: int,
                                   cpaValue: real, deposit: real)

  datatype Column = Clicks | Registrations | Ftds | CpaValue | Deposit

  function KeyOf(r: MetricsRow): Key {
    Key(BETNACIONAL, r.campaign, r.date)
  }

  function Get(r: MetricsRow, c: Column): real {
    match c
    case Clicks => r.clicks as real
    case Registrations => r.registrations as real
    case Ftds => r.ftds as real
    case CpaValue => r.cpaValue
    case Deposit => r.deposit
  }

  /** `existing` with the figures of `r` added. */
  function Merge(existing: MetricsRow, r: MetricsRow): MetricsRow {
    existing.(clicks := existing.clicks + r.clicks, registrations := existing.registrations + r.registrations,
              ftds := existing.ftds + r.ftds, cpaValue := existing.cpaValue + r.cpaValue,
                  deposit := existing.deposit + r.deposit)
  }

  /** The sum of a column over the rows with a key. */
  function SumAt(rows: seq<MetricsRow>, key: Key, c: Column): real {
    if rows == [] then 0.0
    else SumAt(rows[..|rows| - 1], key, c) + if KeyOf(rows[|rows| - 1]) == key then Get(rows[|rows| - 1], c) else 0.0
  }

  function Total(rows: seq<MetricsRow>, c: Column): real {
    if rows == [] then 0.0 else Total(rows[..|rows| - 1], c) + Get(rows[|rows| - 1], c)
  }

  predicate HasKey(rows: seq<MetricsRow>, key: Key) {
    exists i | 0 <= i < |rows| :: KeyOf(rows[i]) == key
  }

  ghost predicate UniqueKeys(rows: seq<MetricsRow>) {
    forall i, j | 0 <= i < j < |rows| :: KeyOf(rows[i]) != KeyOf(rows[j])
  }

  /**
   `out` stands for the raw rows: one row per key that occurs, holding the column sums of that key; so the totals agree,
   too.
   */
  ghost predicate Aggregates(out: seq<MetricsRow>, rows: seq<MetricsRow>) {
    && UniqueKeys(out)
    && (forall key :: HasKey(out, key) <==> HasKey(rows, key))
    && (forall i, c | 0 <= i < |out| :: Get(out[i], c) == SumAt(rows, KeyOf(out[i]), c))
    && (forall c :: Total(out, c) == Total(rows, c))
  }

  lemma TotalAppends(rows: seq<MetricsRow>, r: MetricsRow, c: Column)
    ensures Total(rows + [r], c) == Total(rows, c) + Get(r, c)
  {
    assert (rows + [r])[..|rows|] == rows;
  }

  lemma {:induction false} TotalMerged(rows: seq<MetricsRow>, at: nat, r: MetricsRow, c: Column)
    requires at < |rows|
    ensures Total(rows[at := Merge(rows[at], r)], c) == Total(rows, c) + Get(r, c)
  {
    var after, n := rows[at := Merge(rows[at], r)], |rows| - 1;
    if at == n {
      assert after[..n] == rows[..n];
    } else {
      TotalMerged(rows[..n], at, r, c);
      assert after[..n] == rows[..n][at := Merge(rows[at], r)];
    }
  }

  lemma HasKeyAppends(rows: seq<MetricsRow>, r: MetricsRow, key: Key)
    ensures HasKey(rows + [r], key) <==> HasKey(rows, key) || KeyOf(r) == key
  {
    if HasKey(rows, key) {
      var i :| 0 <= i < |rows| && KeyOf(rows[i]) == key;
      assert (rows + [r])[i] == rows[i];
    }
    if KeyOf(r) == key {
      assert (rows + [r])[|rows|] == r;
    }
  }

  lemma {:induction false} NoKeyNoSum(rows: seq<MetricsRow>, key: Key, c: Column)
    requires !HasKey(rows, key)
    ensures SumAt(rows, key, c) == 0.0
  {
    if rows != [] {
      var init := rows[..|rows| - 1];
      assert KeyOf(rows[|rows| - 1]) != key;
      NoKeyNoSum(init, key, c);
    }
  }

  lemma SumAppends(rows: seq<MetricsRow>, r: MetricsRow, key: Key, c: Column)
    ensures SumAt(rows + [r], key, c) == SumAt(rows, key, c) + if KeyOf(r) == key then Get(r, c) else 0.0
  {
    assert (rows + [r])[..|rows|] == rows;
  }

  /** The first row of a new key is copied. */
  lemma AggregatesNew(out: seq<MetricsRow>, rows: seq<MetricsRow>, r: MetricsRow)
    requires Aggregates(out, rows) && !HasKey(out, KeyOf(r))
    ensures Aggregates(out + [r], rows + [r])
  {
    forall key
      ensures HasKey(out + [r], key) <==> HasKey(rows + [r], key)
    {
      HasKeyAppends(out, r, key);
      HasKeyAppends(rows, r, key);
    }
    forall i, c | 0 <= i < |out| + 1
      ensures Get((out + [r])[i], c) == SumAt(rows + [r], KeyOf((out + [r])[i]), c)
    {
      SumAppends(rows, r, KeyOf((out + [r])[i]), c);
      if i == |out| {
        NoKeyNoSum(rows, KeyOf(r), c);
      }
    }
    forall c
      ensures Total(out + [r], c) == Total(rows + [r], c)
    {
      TotalAppends(out, r, c);
      TotalAppends(rows, r, c);
    }
  }

  /** A further row is added to the one that has its key. */
  lemma AggregatesMerged(out: seq<MetricsRow>, rows: seq<MetricsRow>, r: MetricsRow, at: nat)
    requires Aggregates(out, rows) && at < |out| && KeyOf(out[at]) == KeyOf(r)
    ensures Aggregates(out[at := Merge(out[at], r)], rows + [r])
  {
    var after := out[at := Merge(out[at], r)];
    assert forall i | 0 <= i < |out| :: KeyOf(after[i]) == KeyOf(out[i]);
    forall key
      ensures HasKey(after, key) <==> HasKey(rows + [r], key)
    {
      HasKeyAppends(rows, r, key);
      if HasKey(out, key) {
        var i :| 0 <= i < |out| && KeyOf(out[i]) == key;
        assert KeyOf(after[i]) == key;
      }
      assert HasKey(after, key) ==> HasKey(out, key);
    }
    forall i, c | 0 <= i < |after|
      ensures Get(after[i], c) == SumAt(rows + [r], KeyOf(after[i]), c)
    {
      SumAppends(rows, r, KeyOf(after[i]), c);
    }
    forall c
      ensures Total(after, c) == Total(rows + [r], c)
    {
      TotalMerged(out, at, r, c);
      TotalAppends(rows, r, c);
    }
  }

  /** `index` plays the map from key to record; the records keep the order of first occurrence. */
  ghost predicate Indexed(out: seq<MetricsRow>, index: map<Key, nat>) {
    && (forall key | key in index :: index[key] < |out| && KeyOf(out[index[key]]) == key)
    && (forall key :: HasKey(out, key) ==> key in index)
  }

  method AggregateByCampaignAndDay(rows: seq<MetricsRow>) returns (out: seq<MetricsRow>)
    ensures Aggregates(out, rows)
  {
    var index: map<Key, nat> := map[];
    out := [];
    for n := 0 to |rows|
      invariant Aggregates(out, rows[..n]) && Indexed(out, index)
    {
      var r := rows[n];
      assert rows[..n + 1] == rows[..n] + [r];
      out, index := AggregateRow(out, index, r, rows[..n]);
    }
    assert rows[..|rows|] == rows;
  }

  method AggregateRow(out0: seq<MetricsRow>, index0: map<Key, nat>, r: MetricsRow, ghost rows: seq<MetricsRow>)
    returns (out: seq<MetricsRow>, index: map<Key, nat>)
    requires Aggregates(out0, rows) && Indexed(out0, index0)
    ensures Aggregates(out, rows + [r]) && Indexed(out, index)
  {
    var key := KeyOf(r);
    if key in index0 {
      var at := index0[key];
      AggregatesMerged(out0, rows, r, at);
      out, index := out0[at := Merge(out0[at], r)], index0;
      forall k | HasKey(out, k)
        ensures k in index
      {
        var i :| 0 <= i < |out| && KeyOf(out[i]) == k;
        assert KeyOf(out0[i]) == k;
      }
    } else {
      AggregatesNew(out0, rows, r);
      out, index := out0 + [r], index0[key := |out0|];
      forall k | HasKey(out, k)
        ensures k in index
      {
        HasKeyAppends(out0, r, k);
      }
    }
  }

  // ----- Values and the change log -----

  /** The figures of a row.  The program's CPA count is a number that only an integer column accepts. */
  datatype Values = Values(clicks: int, registrations: int, ftds: int, qftd: int, deposit: real, netPl: Option<real>,
                           withdrawalTotal: Option<real>, volume: Option<real>, revShare: real, cpaQualified: real,
                           cpaValue: real, totalCommission: real)

  /** Rounding to two decimals, halves away from zero, as the money columns do. */
  function Round2(x: real): real {
    Cents(x) as real / 100.0
  }

  function Cents(x: real): int {
    if x >= 0.0 then (x * 100.0 + 0.5).Floor else -(-x * 100.0 + 0.5).Floor
  }

  function RoundOption(x: Option<real>): Option<real> {
    if x.Some? then Some(Round2(x.value)) else None
  }

  predicate Integral(x: real) {
    x.Floor as real == x
  }

  predicate CentExact(x: real) {
    Integral(x * 100.0)
  }

  /** The values as the columns hold them. */
  function Rounded(v: Values): Values {
    v.(deposit := Round2(v.deposit), netPl := RoundOption(v.netPl), withdrawalTotal := RoundOption(v.withdrawalTotal),
       volume := RoundOption(v.volume), revShare := Round2(v.revShare), cpaValue := Round2(v.cpaValue),
       totalCommission := Round2(v.totalCommission))
  }

  /** A change that matters for balances; clicks and registrations do not. */
  predicate IsMaterialChange(prev: Option<Values>, next: Values) {
    prev.None?
    || prev.value.cpaQualified != next.cpaQualified
    || prev.value.qftd != next.qftd
    || prev.value.ftds != next.ftds
    || prev.value.cpaValue != next.cpaValue
    || prev.value.totalCommission != next.totalCommission
    || prev.value.deposit != next.deposit
    || prev.value.revShare != next.revShare
    || prev.value.netPl != next.netPl
    || prev.value.withdrawalTotal != next.withdrawalTotal
    || prev.value.volume != next.volume
  }

  /** The balance-relevant part of a row. */
  function Material(v: Values): Values {
    v.(clicks := 0, registrations := 0)
  }

  lemma MaterialMeans(prev: Values, next: Values)
    ensures IsMaterialChange(Some(prev), next) <==> Material(prev) != Material(next)
  {
  }

  /** A log row; `prev` is what the table held. */
  datatype Log = Log(key: Key, prev: Option<Values>, next: Values)

  function BuildChangeLogData(key: Key, prev: Option<Values>, next: Values): Log {
    Log(key, prev, Rounded(next))
  }

  datatype Fault = Works | UpsertThrows | LogThrows

  /** One row to be written: `keepsOthers` says that an update leaves the three columns it has no figures for. */
  datatype Job = Job(key: Key, next: Values, keepsOthers: bool, fault: Fault)

  datatype Store = Store(table: map<Key, Values>, logs: seq<Log>)

  function Lookup(table: map<Key, Values>, key: Key): Option<Values> {
    if key in table then Some(table[key]) else None
  }

  predicate Written(j: Job) {
    !j.fault.UpsertThrows? && Integral(j.next.cpaQualified)
  }

  function Upserted(prev: Option<Values>, j: Job): Values {
    var stored := Rounded(j.next);
    if j.keepsOthers && prev.Some?
    then stored.(netPl := prev.value.netPl, withdrawalTotal := prev.value.withdrawalTotal, volume := prev.value.volume)
    else stored
  }

  predicate Logged(table: map<Key, Values>, j: Job) {
    Written(j) && IsMaterialChange(Lookup(table, j.key), j.next) && !j.fault.LogThrows?
  }

  function SyncRow(s: Store, j: Job): Store {
    if !Written(j) then s
    else
      Store(s.table[j.key := Upserted(Lookup(s.table, j.key), j)],
            if Logged(s.table, j) then s.logs + [BuildChangeLogData(j.key, Lookup(s.table, j.key), j.next)] else s.logs)
  }

  function SyncRows(s: Store, jobs: seq<Job>): Store {
    if jobs == [] then s else SyncRow(SyncRows(s, jobs[..|jobs| - 1]), jobs[|jobs| - 1])
  }

  // ----- The two syncs -----

  function BetnacionalValues(r: MetricsRow): Values {
    Values(r.clicks, r.registrations, r.ftds, r.ftds, r.deposit, None, None, None, 0.0, r.cpaValue, r.cpaValue,
           r.cpaValue)
  }

  function BetnacionalJobs(rows: seq<MetricsRow>, faults: seq<Fault>): seq<Job>
    requires |rows| == |faults|
  {
    if rows == [] then []
    else
      var n := |rows| - 1;
      BetnacionalJobs(rows[..n], faults[..n]) + [Job(KeyOf(rows[n]), BetnacionalValues(rows[n]), true, faults[n])]
  }

  /** A row of a Betano Diário tab. */
  datatype DailyRow = DailyRow(campaign: string, date: int, clicks: int, registrations: int, ftds: int, deposit: real,
                               cpaQualified: int)

  function DailyValues(r: DailyRow, cpaRate: real): Values {
    var cpaValue := (r.cpaQualified as real) * cpaRate;
    Values(r.clicks, r.registrations, r.ftds, r.cpaQualified, r.deposit, None, None, None, 0.0,
           r.cpaQualified as real, cpaValue, cpaValue)
  }

  /** Rows whose campaign has no rate are skipped. */
  function DailyJobs(rows: seq<DailyRow>, rates: map<string, real>, faults: seq<Fault>): seq<Job>
    requires |rows| == |faults|
  {
    if rows == [] then []
    else
      var n := |rows| - 1;
      DailyJobs(rows[..n], rates, faults[..n])
      + if rows[n].campaign in rates
        then [Job(Key(BETANO_DIARIO, rows[n].campaign, rows[n].date), DailyValues(rows[n], rates[rows[n].campaign]),
                  false, faults[n])] else []
  }

  class MetricsStore {
    var table: map<Key, Values>
    var logs: seq<Log>

    ghost function State(): Store
      reads this
    {
      Store(table, logs)
    }

    constructor ()
      ensures State() == Store(map[], [])
    {
      table, logs := map[], [];
    }

    /** Read, upsert, compare, log; a thrown upsert or log write is caught by the caller. */
    method WriteRow(j: Job) returns (written: bool, previous: Option<Values>, materialChange: bool, logged: bool)
      modifies this
      ensures State() == SyncRow(old(State()), j)
      ensures written == Written(j)
      ensures previous == Lookup(old(table), j.key)
      ensures written ==> materialChange == IsMaterialChange(previous, j.next)
      ensures logged == Logged(old(table), j)
    {
      previous := Lookup(table, j.key);
      written, materialChange, logged := Written(j), false, false;
      if !written {
        return;
      }
      table := table[j.key := Upserted(previous, j)];
      materialChange := IsMaterialChange(previous, j.next);
      if materialChange {
        if !j.fault.LogThrows? {
          logs := logs + [BuildChangeLogData(j.key, previous, j.next)];
          logged := true;
        }
      }
    }

    method SyncBetnacional(rows: seq<MetricsRow>, faults: seq<Fault>) returns (inserted: nat, updated: nat, errors: nat)
      requires |rows| == |faults|
      modifies this
      ensures State() == SyncRows(old(State()), BetnacionalJobs(rows, faults))
      ensures inserted + updated + errors == |rows|
      ensures |table| == |old(table)| + inserted
    {
      inserted, updated, errors := 0, 0, 0;
      for i := 0 to |rows|
        invariant State() == SyncRows(old(State()), BetnacionalJobs(rows[..i], faults[..i]))
        invariant inserted + updated + errors == i && |table| == |old(table)| + inserted
      {
        assert rows[..i + 1][..i] == rows[..i] && faults[..i + 1][..i] == faults[..i];
        var j := Job(KeyOf(rows[i]), BetnacionalValues(rows[i]), true, faults[i]);
        LastJob(old(State()), BetnacionalJobs(rows[..i], faults[..i]), j);
        var written, previous, _, _ := WriteRow(j);
        if !written {
          errors := errors + 1;
        } else if previous.None? {
          inserted := inserted + 1;
        } else {
          updated := updated + 1;
        }
      }
      assert rows[..|rows|] == rows && faults[..|rows|] == faults;
    }

    /**
     `writtenDates` are the days with an inserted or materially changed row; a failed log write counts as an error.
     */
    method SyncBetanoDiario(rows: seq<DailyRow>, rates: map<string, real>, issues: nat, faults: seq<Fault>)
      returns (inserted: nat, updated: nat, errors: nat, totalRecords: nat, writtenDates: set<int>)
      requires |rows| == |faults|
      modifies this
      ensures State() == SyncRows(old(State()), DailyJobs(rows, rates, faults))
      ensures |table| == |old(table)| + inserted
      ensures Fault.LogThrows !in faults ==>
                && totalRecords + errors == issues + |rows|
                && inserted + updated == |logs| - |old(logs)|
                && writtenDates == DatesOf(logs, |old(logs)|)
    {
      inserted, updated, errors, totalRecords, writtenDates := 0, 0, issues, 0, {};
      assert DatesOf(logs, |old(logs)|) == {};
      for i := 0 to |rows|
        invariant State() == SyncRows(old(State()), DailyJobs(rows[..i], rates, faults[..i]))
        invariant |table| == |old(table)| + inserted
        invariant |logs| >= |old(logs)|
        invariant Fault.LogThrows !in faults ==>
                    && totalRecords + errors == issues + i
                    && inserted + updated == |logs| - |old(logs)|
                    && writtenDates == DatesOf(logs, |old(logs)|)
      {
        var row := rows[i];
        assert rows[..i + 1][..i] == rows[..i] && faults[..i + 1][..i] == faults[..i];
        if row.campaign !in rates {
          assert DailyJobs(rows[..i], rates, faults[..i]) + [] == DailyJobs(rows[..i], rates, faults[..i]);
          errors := errors + 1;
          continue;
        }
        var j := Job(Key(BETANO_DIARIO, row.campaign, row.date), DailyValues(row, rates[row.campaign]), false,
                     faults[i]);
        LastJob(old(State()), DailyJobs(rows[..i], rates, faults[..i]), j);
        ghost var before := logs;
        var written, previous, materialChange, logged := WriteRow(j);
        LogGrows(before, logs, |old(logs)|, j.key);
        if !written {
          errors := errors + 1;
          continue;
        }
        if previous.None? {
          inserted := inserted + 1;
        } else if materialChange {
          updated := updated + 1;
        }
        totalRecords := totalRecords + 1;
        if previous.None? || materialChange {
          writtenDates := writtenDates + {row.date};
        }
        if materialChange && !logged {
          errors := errors + 1;
        }
      }
      assert rows[..|rows|] == rows && faults[..|rows|] == faults;
    }
  }

  /** The days of the log rows from position `n` on. */
  function DatesOf(logs: seq<Log>, n: nat): set<int> {
    set i | n <= i < |logs| :: logs[i].key.date
  }

  lemma LogGrows(before: seq<Log>, after: seq<Log>, n: nat, key: Key)
    requires n <= |before|
    requires after == before || (|after| == |before| + 1 && after[..|before|] == before && after[|before|].key == key)
    ensures DatesOf(after, n) == if after == before then DatesOf(before, n) else DatesOf(before, n) + {key.date}
  {
    if after != before {
      assert forall i | n <= i < |before| :: after[i] == after[..|before|][i] == before[i];
    }
  }

  lemma LastJob(s: Store, jobs: seq<Job>, j: Job)
    ensures SyncRows(s, jobs + [j]) == SyncRow(SyncRows(s, jobs), j)
  {
    assert (jobs + [j])[..|jobs|] == jobs;
  }

  // ----- The chain of log rows -----

  /** The figures of the last of the first `n` log rows of a key. */
  function LastLogged(logs: seq<Log>, key: Key, n: nat): Option<Values>
    requires n <= |logs|
  {
    if n == 0 then None else if logs[n - 1].key == key then Some(logs[n - 1].next) else LastLogged(logs, key, n - 1)
  }

  /** Two snapshots agree on what matters for balances, absence included. */
  predicate SameMaterial(a: Option<Values>, b: Option<Values>) {
    a.Some? == b.Some? && (a.Some? ==> Material(a.value) == Material(b.value))
  }

  /** Log row `i` starts where the previous one of its key ended. */
  predicate Linked(logs: seq<Log>, i: nat)
    requires i < |logs|
  {
    SameMaterial(logs[i].prev, LastLogged(logs, logs[i].key, i))
  }

  /** Figures without net result, withdrawals and volume: what the two syncs write. */
  predicate Plain(v: Values) {
    v.netPl.None? && v.withdrawalTotal.None? && v.volume.None?
  }

  /** The three columns that an update of the Betnacional sync leaves alone. */
  predicate SameOthers(a: Values, b: Values) {
    a.netPl == b.netPl && a.withdrawalTotal == b.withdrawalTotal && a.volume == b.volume
  }

  /** The money columns hold two decimals. */
  ghost predicate Stored(table: map<Key, Values>) {
    forall key | key in table :: Rounded(table[key]) == table[key]
  }

  /** Every log row starts where the previous one of its key ended, and the last one shows the row that is stored. */
  ghost predicate Chained(s: Store) {
    && (forall key :: SameMaterial(Lookup(s.table, key), LastLogged(s.logs, key, |s.logs|)))
    && (forall i | 0 <= i < |s.logs| :: Linked(s.logs, i))
    && Stored(s.table)
  }

  lemma {:induction false} LastLoggedPrefix(logs: seq<Log>, l: Log, key: Key, n: nat)
    requires n <= |logs|
    ensures LastLogged(logs + [l], key, n) == LastLogged(logs, key, n)
  {
    if n > 0 {
      LastLoggedPrefix(logs, l, key, n - 1);
    }
  }

  lemma FloorIs(y: real, n: int)
    requires n as real <= y < n as real + 1.0
    ensures y.Floor == n
  {
  }

  lemma CentsOfWhole(x: real, n: int)
    requires x * 100.0 == n as real
    ensures Cents(x) == n
  {
    if x >= 0.0 {
      FloorIs(x * 100.0 + 0.5, n);
    } else {
      FloorIs(-x * 100.0 + 0.5, -n);
    }
  }

  /** Rounding twice changes nothing, and rounding changes nothing exactly when the amount has whole cents. */
  lemma Round2Twice(x: real)
    ensures Round2(Round2(x)) == Round2(x)
    ensures Round2(x) == x <==> CentExact(x)
  {
    CentsOfWhole(Round2(x), Cents(x));
    if CentExact(x) {
      CentsOfWhole(x, (x * 100.0).Floor);
    }
    if Round2(x) == x {
      FloorIs(x * 100.0, Cents(x));
    }
  }

  lemma RoundedTwice(v: Values)
    ensures Rounded(Rounded(v)) == Rounded(v)
  {
    Round2Twice(v.deposit);
    Round2Twice(v.revShare);
    Round2Twice(v.cpaValue);
    Round2Twice(v.totalCommission);
    if v.netPl.Some? {
      Round2Twice(v.netPl.value);
    }
    if v.withdrawalTotal.Some? {
      Round2Twice(v.withdrawalTotal.value);
    }
    if v.volume.Some? {
      Round2Twice(v.volume.value);
    }
  }

  /** The job's update keeps other figures in the table than the log row claims. */
  predicate LeavesStale(table: map<Key, Values>, j: Job) {
    Written(j) && j.keepsOthers && j.key in table && !SameOthers(table[j.key], Rounded(j.next))
  }

  lemma StoredStays(s: Store, j: Job)
    requires Stored(s.table)
    ensures Stored(SyncRow(s, j).table)
  {
    RoundedTwice(j.next);
  }

  /** Writing a row is logged exactly if its material figures change, when the log write does not fail. */
  lemma LoggedExactlyWhen(s: Store, j: Job)
    requires Stored(s.table) && Written(j) && !j.fault.LogThrows?
    ensures Logged(s.table, j) <==> j.key !in s.table || Material(s.table[j.key]) != Material(j.next)
    ensures !Logged(s.table, j) ==>
              Material(Upserted(Lookup(s.table, j.key), j)) == Material(s.table[j.key]) && !LeavesStale(s.table, j)
  {
    if j.key in s.table {
      MaterialMeans(s.table[j.key], j.next);
      if !Logged(s.table, j) {
        UnchangedIsRounded(s.table[j.key], j.next);
      }
    }
  }

  /** Writing one row keeps the chain exactly if it leaves no stale figures, provided its log write does not fail. */
  lemma RowKeepsChain(s: Store, j: Job)
    requires Chained(s) && !j.fault.LogThrows?
    ensures Chained(SyncRow(s, j)) <==> !LeavesStale(s.table, j)
  {
    if Written(j) {
      LoggedExactlyWhen(s, j);
      StoredStays(s, j);
      if Logged(s.table, j) {
        var l := BuildChangeLogData(j.key, Lookup(s.table, j.key), j.next);
        LogKeepsLinks(s, j, l);
        assert LastLogged(s.logs + [l], j.key, |s.logs| + 1) == Some(l.next);
      } else {
        UnloggedKeepsShown(s, j);
      }
    }
  }

  /** Without a log row every key still shows what it showed before. */
  lemma UnloggedKeepsShown(s: Store, j: Job)
    requires Stored(s.table) && Written(j) && !j.fault.LogThrows? && !Logged(s.table, j)
    ensures SyncRow(s, j).logs == s.logs
    ensures forall key :: SameMaterial(Lookup(SyncRow(s, j).table, key), Lookup(s.table, key))
  {
    LoggedExactlyWhen(s, j);
  }

  /** A broken chain is never mended. */
  lemma BrokenStaysBroken(s: Store, j: Job)
    requires Stored(s.table) && !Chained(s) && !j.fault.LogThrows?
    ensures !Chained(SyncRow(s, j))
  {
    if Written(j) {
      var after := SyncRow(s, j);
      if !Logged(s.table, j) {
        UnloggedKeepsShown(s, j);
      } else {
        var l := BuildChangeLogData(j.key, Lookup(s.table, j.key), j.next);
        if i :| 0 <= i < |s.logs| && !Linked(s.logs, i) {
          LastLoggedPrefix(s.logs, l, s.logs[i].key, i);
          assert !Linked(after.logs, i);
        } else {
          var key :| !SameMaterial(Lookup(s.table, key), LastLogged(s.logs, key, |s.logs|));
          LastLoggedPrefix(s.logs, l, key, |s.logs|);
          if key == j.key {
            assert !Linked(after.logs, |s.logs|);
          } else {
            assert !SameMaterial(Lookup(after.table, key), LastLogged(after.logs, key, |after.logs|));
          }
        }
      }
    }
  }

  /** Without a material change the stored row keeps its material figures, whatever rounding does. */
  lemma UnchangedIsRounded(previous: Values, next: Values)
    requires Rounded(previous) == previous && Material(previous) == Material(next)
    ensures Material(Rounded(next)) == Material(previous)
  {
    assert Rounded(next) == Rounded(previous).(clicks := next.clicks, registrations := next.registrations);
  }

  lemma LinkedStays(logs: seq<Log>, l: Log, i: nat)
    requires i < |logs| && Linked(logs, i)
    ensures Linked(logs + [l], i)
  {
    LastLoggedPrefix(logs, l, logs[i].key, i);
  }

  lemma LastIsLinked(logs: seq<Log>, l: Log)
    requires SameMaterial(l.prev, LastLogged(logs, l.key, |logs|))
    ensures Linked(logs + [l], |logs|)
  {
    LastLoggedPrefix(logs, l, l.key, |logs|);
  }

  /** A new log row is linked, and leaves what other keys show alone. */
  lemma LogKeepsLinks(s: Store, j: Job, l: Log)
    requires Chained(s) && Written(j) && l.key == j.key && l.prev == Lookup(s.table, j.key)
    ensures var logs := s.logs + [l];
            && (forall i | 0 <= i < |logs| :: Linked(logs, i))
            && (forall key | key != j.key ::
                SameMaterial(Lookup(SyncRow(s, j).table, key), LastLogged(logs, key, |logs|)))
  {
    LastIsLinked(s.logs, l);
    forall i | 0 <= i < |s.logs|
      ensures Linked(s.logs + [l], i)
    {
      LinkedStays(s.logs, l, i);
    }
    forall key | key != j.key
      ensures SameMaterial(Lookup(SyncRow(s, j).table, key), LastLogged(s.logs + [l], key, |s.logs| + 1))
    {
      LastLoggedPrefix(s.logs, l, key, |s.logs|);
      assert Lookup(SyncRow(s, j).table, key) == Lookup(s.table, key);
    }
  }

  lemma {:induction false} StoredAlways(s: Store, jobs: seq<Job>)
    requires Stored(s.table)
    ensures Stored(SyncRows(s, jobs).table)
  {
    if jobs != [] {
      StoredAlways(s, jobs[..|jobs| - 1]);
      StoredStays(SyncRows(s, jobs[..|jobs| - 1]), jobs[|jobs| - 1]);
    }
  }

  /** What every job of the two syncs is like: each sync writes to its own house. */
  predicate FromSync(j: Job) {
    && Plain(j.next) && !j.fault.LogThrows?
    && (if j.keepsOthers then j.key.house == BETNACIONAL else j.key.house == BETANO_DIARIO)
  }

  /** The job updates a row with net result, withdrawals or volume and leaves them there. */
  predicate OldJob(table: map<Key, Values>, j: Job) {
    Written(j) && j.keepsOthers && j.key in table && !Plain(table[j.key])
  }

  /** The rows of Betnacional keep net result, withdrawals and volume for good. */
  lemma {:induction false} OldFiguresStay(s: Store, jobs: seq<Job>, n: nat, key: Key)
    requires n <= |jobs| && (forall i | 0 <= i < |jobs| :: FromSync(jobs[i])) && key.house == BETNACIONAL
    ensures var table := SyncRows(s, jobs[..n]).table;
            (key in table && !Plain(table[key])) <==> (key in s.table && !Plain(s.table[key]))
  {
    if n > 0 {
      OldFiguresStay(s, jobs, n - 1, key);
      assert jobs[..n] == jobs[..n - 1] + [jobs[n - 1]];
      LastJob(s, jobs[..n - 1], jobs[n - 1]);
    }
  }

  /**
   Over any jobs of the two syncs, faults at the upsert included, the change log stays a chain exactly if none of them
   leaves net result, withdrawals or volume in a row.  Once broken, the chain is broken for good.
   */
  lemma {:induction false} JobsKeepTheChain(s: Store, jobs: seq<Job>, n: nat)
    requires Chained(s) && n <= |jobs| && forall i | 0 <= i < |jobs| :: FromSync(jobs[i])
    ensures Chained(SyncRows(s, jobs[..n])) <==> forall m | 0 <= m < n :: !OldJob(s.table, jobs[m])
  {
    if n > 0 {
      var before, j := SyncRows(s, jobs[..n - 1]), jobs[n - 1];
      JobsKeepTheChain(s, jobs, n - 1);
      assert jobs[..n] == jobs[..n - 1] + [j];
      LastJob(s, jobs[..n - 1], j);
      if Chained(before) {
        RowKeepsChain(before, j);
        if j.keepsOthers {
          OldFiguresStay(s, jobs, n - 1, j.key);
        }
        assert LeavesStale(before.table, j) <==> OldJob(s.table, j);
      } else {
        StoredAlways(s, jobs[..n - 1]);
        BrokenStaysBroken(before, j);
      }
    }
  }

  // ----- Histories of syncs -----

  /**
   One sync: of Betnacional with its aggregated rows, or of Betano Diário with the rows of its tabs and the links'
   rates.
   */
  datatype Sync =
    | Betnacional(rows: seq<MetricsRow>, faults: seq<Fault>)
    | BetanoDiario(daily: seq<DailyRow>, rates: map<string, real>, faults: seq<Fault>)

  /** There is a fault, or none, for every row, and no log write fails. */
  ghost predicate LogsWork(y: Sync) {
    && (y.Betnacional? ==> |y.rows| == |y.faults|) && (y.BetanoDiario? ==> |y.daily| == |y.faults|)
    && Fault.LogThrows !in y.faults
  }

  function JobsOf(y: Sync): seq<Job>
    requires LogsWork(y)
  {
    match y
    case Betnacional(rows, faults) => BetnacionalJobs(rows, faults)
    case BetanoDiario(daily, rates, faults) => DailyJobs(daily, rates, faults)
  }

  function SyncAll(s: Store, syncs: seq<Sync>): Store
    requires forall y | y in syncs :: LogsWork(y)
  {
    if syncs == [] then s
    else
      assert syncs[|syncs| - 1] in syncs;
      SyncRows(SyncAll(s, syncs[..|syncs| - 1]), JobsOf(syncs[|syncs| - 1]))
  }

  function AllJobs(syncs: seq<Sync>): seq<Job>
    requires forall y | y in syncs :: LogsWork(y)
  {
    if syncs == [] then [] else AllJobs(syncs[..|syncs| - 1]) + JobsOf(syncs[|syncs| - 1])
  }

  lemma {:induction false} SyncRowsAppends(s: Store, jobs: seq<Job>, more: seq<Job>)
    ensures SyncRows(s, jobs + more) == SyncRows(SyncRows(s, jobs), more)
  {
    if more == [] {
      assert jobs + more == jobs;
    } else {
      var n := |more| - 1;
      SyncRowsAppends(s, jobs, more[..n]);
      assert jobs + more == (jobs + more[..n]) + [more[n]];
      LastJob(s, jobs + more[..n], more[n]);
    }
  }

  lemma {:induction false} SyncAllIsJobs(s: Store, syncs: seq<Sync>)
    requires forall y | y in syncs :: LogsWork(y)
    ensures SyncAll(s, syncs) == SyncRows(s, AllJobs(syncs))
  {
    if syncs != [] {
      SyncAllIsJobs(s, syncs[..|syncs| - 1]);
      SyncRowsAppends(s, AllJobs(syncs[..|syncs| - 1]), JobsOf(syncs[|syncs| - 1]));
    }
  }

  lemma {:induction false} BetnacionalJobsAre(rows: seq<MetricsRow>, faults: seq<Fault>)
    requires |rows| == |faults| && Fault.LogThrows !in faults
    ensures forall j | j in BetnacionalJobs(rows, faults) :: FromSync(j) && j.keepsOthers
  {
    if rows != [] {
      BetnacionalJobsAre(rows[..|rows| - 1], faults[..|rows| - 1]);
    }
  }

  lemma {:induction false} DailyJobsAre(rows: seq<DailyRow>, rates: map<string, real>, faults: seq<Fault>)
    requires |rows| == |faults| && Fault.LogThrows !in faults
    ensures forall j | j in DailyJobs(rows, rates, faults) :: FromSync(j) && !j.keepsOthers
  {
    if rows != [] {
      DailyJobsAre(rows[..|rows| - 1], rates, faults[..|rows| - 1]);
    }
  }

  /** A Betnacional sync that writes to such a row. */
  predicate MeetsOldRows(table: map<Key, Values>, y: Sync) {
    y.Betnacional? &&
    exists i | 0 <= i < |y.rows| && i < |y.faults| ::
      && !y.faults[i].UpsertThrows? && Integral(y.rows[i].cpaValue)
      && KeyOf(y.rows[i]) in table && !Plain(table[KeyOf(y.rows[i])])
  }

  lemma OldJobsOfSync(table: map<Key, Values>, y: Sync)
    requires LogsWork(y)
    ensures forall j | j in JobsOf(y) :: FromSync(j)
    ensures MeetsOldRows(table, y) <==> exists j | j in JobsOf(y) :: OldJob(table, j)
  {
    match y
    case BetanoDiario(daily, rates, faults) =>
      DailyJobsAre(daily, rates, faults);
    case Betnacional(rows, faults) =>
      BetnacionalJobsAre(rows, faults);
      forall i | 0 <= i < |rows|
        ensures |JobsOf(y)| == |rows|
            && JobsOf(y)[i] == Job(KeyOf(rows[i]), BetnacionalValues(rows[i]), true, faults[i])
      {
        JobsAt(rows, faults, i);
      }
      if MeetsOldRows(table, y) {
        var i :| 0 <= i < |rows| && !faults[i].UpsertThrows? && Integral(rows[i].cpaValue)
                 && KeyOf(rows[i]) in table && !Plain(table[KeyOf(rows[i])]);
        assert JobsOf(y)[i] in JobsOf(y) && OldJob(table, JobsOf(y)[i]);
      }
      if j :| j in JobsOf(y) && OldJob(table, j) {
        var i :| 0 <= i < |JobsOf(y)| && JobsOf(y)[i] == j;
        assert i < |rows|;
      }
  }

  lemma {:induction false} OldJobsOfAll(table: map<Key, Values>, syncs: seq<Sync>)
    requires forall y | y in syncs :: LogsWork(y)
    ensures forall j | j in AllJobs(syncs) :: FromSync(j)
    ensures (exists y | y in syncs :: MeetsOldRows(table, y)) <==> exists j | j in AllJobs(syncs) :: OldJob(table, j)
  {
    if syncs != [] {
      var init, last := syncs[..|syncs| - 1], syncs[|syncs| - 1];
      assert syncs == init + [last];
      OldJobsOfAll(table, init);
      OldJobsOfSync(table, last);
      assert AllJobs(syncs) == AllJobs(init) + JobsOf(last);
    }
  }

  /**
   Over any history of syncs of both kinds the change log stays a chain exactly if no Betnacional sync writes to a row
   that held net result, withdrawals or volume at the start: Betano Diário never writes to the rows of Betnacional.
   */
  lemma SyncsKeepTheChain(s: Store, syncs: seq<Sync>)
    requires Chained(s) && forall y | y in syncs :: LogsWork(y)
    ensures Chained(SyncAll(s, syncs)) <==> forall y | y in syncs :: !MeetsOldRows(s.table, y)
  {
    var jobs := AllJobs(syncs);
    SyncAllIsJobs(s, syncs);
    OldJobsOfAll(s.table, syncs);
    forall i | 0 <= i < |jobs|
      ensures FromSync(jobs[i])
    {
      assert jobs[i] in jobs;
    }
    JobsKeepTheChain(s, jobs, |jobs|);
    assert jobs[..|jobs|] == jobs;
  }

  /** A stored net result is enough: the first Betnacional sync of that row breaks the chain. */
  lemma OldFiguresBreakTheChain() returns (s: Store, syncs: seq<Sync>)
    ensures Chained(s) && (forall y | y in syncs :: LogsWork(y)) && !Chained(SyncAll(s, syncs))
  {
    var row := MetricsRow("campaign", 0, 0, 0, 0, 0.0, 0.0);
    var stored := BetnacionalValues(row).(netPl := Some(0.0));
    assert Integral(0.0) && Integral(0.0 * 100.0);
    Round2Twice(0.0);
    s := Store(map[KeyOf(row) := stored], [Log(KeyOf(row), None, stored)]);
    assert Linked(s.logs, 0);
    assert forall key ::
        LastLogged(s.logs, key, 1) == if key == KeyOf(row) then Some(stored) else LastLogged(s.logs, key, 0);
    var y := Betnacional([row], [Works]);
    assert y.rows[0] == row && MeetsOldRows(s.table, y);
    syncs := [y];
    SyncsKeepTheChain(s, syncs);
  }

  // ----- A second sync of the same sheet -----

  ghost predicate UniqueJobs(jobs: seq<Job>) {
    forall i, j | 0 <= i < j < |jobs| :: jobs[i].key != jobs[j].key
  }

  /** Everything a job can write is in the table; `base` is what the first sync found. */
  ghost predicate Settled(table: map<Key, Values>, base: map<Key, Values>, jobs: seq<Job>, n: nat) {
    n <= |jobs| && forall i | 0 <= i < n && Written(jobs[i]) ::
        Lookup(table, jobs[i].key) == Some(Upserted(Lookup(base, jobs[i].key), jobs[i]))
  }

  lemma {:induction false} FirstSyncSettles(s: Store, jobs: seq<Job>, n: nat)
    requires n <= |jobs| && UniqueJobs(jobs)
    ensures Settled(SyncRows(s, jobs[..n]).table, s.table, jobs, n)
    ensures forall key | (forall i | 0 <= i < n :: jobs[i].key != key) ::
        Lookup(SyncRows(s, jobs[..n]).table, key) == Lookup(s.table, key)
  {
    if n > 0 {
      FirstSyncSettles(s, jobs, n - 1);
      assert jobs[..n] == jobs[..n - 1] + [jobs[n - 1]];
      LastJob(s, jobs[..n - 1], jobs[n - 1]);
    }
  }

  /** A job that must be written and whose figures differ from what its first write leaves in the table. */
  predicate Inexact(base: map<Key, Values>, j: Job) {
    Written(j) && Material(Upserted(Lookup(base, j.key), j)) != Material(j.next)
  }

  /** On a settled table nothing changes any more, and exactly the inexact jobs are logged. */
  lemma {:induction false} SecondSync(s: Store, base: map<Key, Values>, jobs: seq<Job>, n: nat)
    requires n <= |jobs| && Settled(s.table, base, jobs, |jobs|)
    requires forall i | 0 <= i < |jobs| :: !jobs[i].fault.LogThrows?
    ensures var after := SyncRows(s, jobs[..n]);
            && after.table == s.table && |after.logs| >= |s.logs|
            && (after.logs == s.logs <==> |after.logs| == |s.logs|)
            && (|after.logs| == |s.logs| <==> forall i | 0 <= i < n :: !Inexact(base, jobs[i]))
  {
    if n > 0 {
      var j, before := jobs[n - 1], SyncRows(s, jobs[..n - 1]);
      SecondSync(s, base, jobs, n - 1);
      assert jobs[..n] == jobs[..n - 1] + [j];
      LastJob(s, jobs[..n - 1], j);
      if Written(j) {
        var stored := Upserted(Lookup(base, j.key), j);
        assert Lookup(s.table, j.key) == Some(stored);
        MaterialMeans(stored, j.next);
        assert Upserted(Lookup(before.table, j.key), j) == stored;
        assert before.table[j.key := stored] == before.table;
      }
    }
  }

  /**
   A row that a second sync does not log: whole cents, and no other figures that the first sync found in the table.
   */
  predicate Silent(base: map<Key, Values>, r: MetricsRow) {
    Integral(r.cpaValue) ==> CentExact(r.deposit) && (KeyOf(r) in base ==> Plain(base[KeyOf(r)]))
  }

  lemma {:induction false} JobsAt(rows: seq<MetricsRow>, faults: seq<Fault>, i: nat)
    requires |rows| == |faults| && i < |rows|
    ensures |BetnacionalJobs(rows, faults)| == |rows|
    ensures BetnacionalJobs(rows, faults)[i] == Job(KeyOf(rows[i]), BetnacionalValues(rows[i]), true, faults[i])
  {
    var n := |rows| - 1;
    if i < n {
      JobsAt(rows[..n], faults[..n], i);
    } else if n > 0 {
      JobsAt(rows[..n], faults[..n], 0);
    }
  }

  lemma WholeIsCentExact(x: real)
    requires Integral(x)
    ensures CentExact(x)
  {
    FloorIs(x * 100.0, 100 * x.Floor);
  }

  /** Of a row's figures only the deposit can be changed by rounding. */
  lemma OnlyDepositRounds(base: map<Key, Values>, r: MetricsRow, fault: Fault)
    requires fault.Works?
    ensures Inexact(base, Job(KeyOf(r), BetnacionalValues(r), true, fault)) <==> !Silent(base, r)
  {
    var v := BetnacionalValues(r);
    Round2Twice(r.deposit);
    Round2Twice(0.0);
    assert Integral(0.0);
    WholeIsCentExact(0.0);
    if Integral(r.cpaValue) {
      WholeIsCentExact(r.cpaValue);
      Round2Twice(r.cpaValue);
      assert Rounded(v) == v.(deposit := Round2(r.deposit));
      var stored := Upserted(Lookup(base, KeyOf(r)), Job(KeyOf(r), v, true, fault));
      assert Material(stored) == Material(v) <==> stored.deposit == v.deposit && SameOthers(stored, v);
    }
  }

  ghost predicate AllWork(faults: seq<Fault>) {
    forall i | 0 <= i < |faults| :: faults[i].Works?
  }

  /** `second` holds the rows of `first`, in any order. */
  ghost predicate SameRows(first: seq<MetricsRow>, second: seq<MetricsRow>) {
    forall i | 0 <= i < |second| :: second[i] in first
  }

  lemma SettledForSameRows(table: map<Key, Values>, base: map<Key, Values>, first: seq<MetricsRow>,
                           second: seq<MetricsRow>, f1: seq<Fault>, f2: seq<Fault>)
    requires |f1| == |first| && |f2| == |second| && AllWork(f1) && AllWork(f2) && SameRows(first, second)
    requires Settled(table, base, BetnacionalJobs(first, f1), |first|)
    ensures Settled(table, base, BetnacionalJobs(second, f2), |second|)
    ensures forall i | 0 <= i < |second| :: !BetnacionalJobs(second, f2)[i].fault.LogThrows?
    ensures forall i | 0 <= i < |second| :: Inexact(base, BetnacionalJobs(second, f2)[i]) <==> !Silent(base, second[i])
  {
    var jobs := BetnacionalJobs(second, f2);
    assert |jobs| == |second| by {
      if second != [] {
        JobsAt(second, f2, 0);
      }
    }
    forall i | 0 <= i < |second|
      ensures jobs[i] == Job(KeyOf(second[i]), BetnacionalValues(second[i]), true, f2[i])
      ensures Written(jobs[i]) ==> Lookup(table, jobs[i].key) == Some(Upserted(Lookup(base, jobs[i].key), jobs[i]))
      ensures Inexact(base, jobs[i]) <==> !Silent(base, second[i])
    {
      JobsAt(second, f2, i);
      var k :| 0 <= k < |first| && first[k] == second[i];
      JobsAt(first, f1, k);
      OnlyDepositRounds(base, second[i], f2[i]);
    }
  }

  /**
   Syncing the same Betnacional rows twice writes the same table.  The second time logs nothing exactly when every
   row that the table accepts, one with a whole CPA count, has a deposit in whole cents and found no net result,
   withdrawals or volume in the table.
   */
  lemma ResyncIsSilentExactlyWhen(s: Store, first: seq<MetricsRow>, second: seq<MetricsRow>, f1: seq<Fault>,
                                  f2: seq<Fault>)
    requires UniqueKeys(first) && SameRows(first, second)
    requires |f1| == |first| && |f2| == |second| && AllWork(f1) && AllWork(f2)
    ensures var once := SyncRows(s, BetnacionalJobs(first, f1));
            var twice := SyncRows(once, BetnacionalJobs(second, f2));
            twice.table == once.table
                && (twice.logs == once.logs <==> forall i | 0 <= i < |second| :: Silent(s.table, second[i]))
  {
    var jobs, again := BetnacionalJobs(first, f1), BetnacionalJobs(second, f2);
    JobsHaveKeys(first, f1);
    JobsHaveKeys(second, f2);
    assert jobs[..|jobs|] == jobs && again[..|again|] == again;
    FirstSyncSettles(s, jobs, |jobs|);
    SettledForSameRows(SyncRows(s, jobs).table, s.table, first, second, f1, f2);
    SecondSync(SyncRows(s, jobs), s.table, again, |again|);
  }

  lemma JobsHaveKeys(rows: seq<MetricsRow>, faults: seq<Fault>)
    requires |rows| == |faults|
    ensures var jobs := BetnacionalJobs(rows, faults); |jobs| == |rows| && (UniqueKeys(rows) ==> UniqueJobs(jobs))
  {
    if rows != [] {
      JobsAt(rows, faults, 0);
    }
    forall i | 0 <= i < |rows|
      ensures BetnacionalJobs(rows, faults)[i].key == KeyOf(rows[i])
    {
      JobsAt(rows, faults, i);
    }
  }

  /** Two aggregations of one sheet hold the same rows, in whatever order. */
  lemma AggregatesAgree(first: seq<MetricsRow>, second: seq<MetricsRow>, sheet: seq<MetricsRow>)
    requires Aggregates(first, sheet) && Aggregates(second, sheet)
    ensures SameRows(first, second)
  {
    forall i | 0 <= i < |second|
      ensures second[i] in first
    {
      assert HasKey(second, KeyOf(second[i])) && HasKey(first, KeyOf(second[i]));
      var k :| 0 <= k < |first| && KeyOf(first[k]) == KeyOf(second[i]);
      forall c
        ensures Get(first[k], c) == Get(second[i], c)
      {
      }
      SameFigures(first[k], second[i]);
    }
  }

  lemma SameFigures(a: MetricsRow, b: MetricsRow)
    requires KeyOf(a) == KeyOf(b) && forall c :: Get(a, c) == Get(b, c)
    ensures a == b
  {
    assert Get(a, Clicks) == Get(b, Clicks) && Get(a, Registrations) == Get(b, Registrations)
        && Get(a, Ftds) == Get(b, Ftds);
    assert Get(a, CpaValue) == Get(b, CpaValue) && Get(a, Deposit) == Get(b, Deposit);
  }

  /**
   The condition on the raw sheet: sums with a whole CPA count have deposits in whole cents and meet no old figures.
   */
  ghost predicate SilentSheet(base: map<Key, Values>, sheet: seq<MetricsRow>) {
    forall key | HasKey(sheet, key) && Integral(SumAt(sheet, key, CpaValue)) ::
      CentExact(SumAt(sheet, key, Deposit)) && (key in base ==> Plain(base[key]))
  }

  lemma SilentSheetMeans(base: map<Key, Values>, out: seq<MetricsRow>, sheet: seq<MetricsRow>)
    requires Aggregates(out, sheet)
    ensures SilentSheet(base, sheet) <==> forall i | 0 <= i < |out| :: Silent(base, out[i])
  {
    forall i | 0 <= i < |out|
      ensures HasKey(sheet, KeyOf(out[i]))
      ensures out[i].cpaValue == SumAt(sheet, KeyOf(out[i]), CpaValue)
          && out[i].deposit == SumAt(sheet, KeyOf(out[i]), Deposit)
    {
      assert HasKey(out, KeyOf(out[i]));
      assert Get(out[i], CpaValue) == SumAt(sheet, KeyOf(out[i]), CpaValue)
          && Get(out[i], Deposit) == SumAt(sheet, KeyOf(out[i]), Deposit);
    }
    forall key | HasKey(sheet, key)
      ensures exists i | 0 <= i < |out| :: KeyOf(out[i]) == key
    {
      assert HasKey(out, key);
    }
  }

  /** Aggregating and syncing one sheet twice: the same table, and silence exactly when the sheet allows it. */
  lemma SheetResyncIsSilentExactlyWhen(s: Store, sheet: seq<MetricsRow>, first: seq<MetricsRow>,
                                       second: seq<MetricsRow>, f1: seq<Fault>, f2: seq<Fault>)
    requires Aggregates(first, sheet) && Aggregates(second, sheet)
    requires |f1| == |first| && |f2| == |second| && AllWork(f1) && AllWork(f2)
    ensures var once := SyncRows(s, BetnacionalJobs(first, f1));
            var twice := SyncRows(once, BetnacionalJobs(second, f2));
            twice.table == once.table && (twice.logs == once.logs <==> SilentSheet(s.table, sheet))
  {
    AggregatesAgree(first, second, sheet);
    ResyncIsSilentExactlyWhen(s, first, second, f1, f2);
    SilentSheetMeans(s.table, second, sheet);
  }

  /** A deposit of half a cent is logged by every sync. */
  lemma HalfACentIsLoggedAgain()
    ensures var rows := [MetricsRow("campaign", 0, 0, 0, 0, 0.0, 0.005)];
            var jobs := BetnacionalJobs(rows, [Works]);
            var once := SyncRows(Store(map[], []), jobs);
            SyncRows(once, jobs).logs != once.logs
  {
    var rows := [MetricsRow("campaign", 0, 0, 0, 0, 0.0, 0.005)];
    assert Integral(rows[0].cpaValue) && !CentExact(rows[0].deposit);
    ResyncIsSilentExactlyWhen(Store(map[], []), rows, rows, [Works], [Works]);
  }

  // ----- What is stored, in plain terms -----

  /** Rounding goes to the nearest cent, from halves away from zero, and alike on both sides of zero. */
  lemma RoundsToNearest(x: real)
    requires x >= 0.0
    ensures x - 0.005 < Round2(x) <= x + 0.005
    ensures Round2(-x) == -Round2(x)
    ensures CentExact(Round2(x))
  {
    FloorIs(Cents(x) as real, Cents(x));
    if x == 0.0 {
      assert -x == x;
    }
    assert Round2(x) * 100.0 == Cents(x) as real;
  }

  /** Two snapshots differ at most in clicks and registrations. */
  predicate AlikeForBalances(a: Values, b: Values) {
    a == b.(clicks := a.clicks, registrations := a.registrations)
  }

  /** A change matters exactly if it is not only one of clicks and registrations; a new row always matters. */
  lemma MattersExactlyWhen(prev: Option<Values>, next: Values)
    ensures IsMaterialChange(prev, next) <==> prev.None? || !AlikeForBalances(prev.value, next)
  {
  }

  /**
   A Betano Diário row whose campaign has a rate becomes one job of its own key and figures; a row without is left out.
   */
  lemma DailyRowIsPaidByCount(rows: seq<DailyRow>, r: DailyRow, rates: map<string, real>, faults: seq<Fault>,
                              fault: Fault)
    requires |rows| == |faults|
    ensures var before, after := DailyJobs(rows, rates, faults), DailyJobs(rows + [r], rates, faults + [fault]);
            if r.campaign !in rates then after == before
            else
              |after| == |before| + 1 && after[..|before|] == before &&
              var j, paid := after[|before|], rates[r.campaign] * (r.cpaQualified as real);
              && j.key == Key("betano-diario", r.campaign, r.date) && !j.keepsOthers && j.fault == fault
              && j.next.cpaValue == paid && j.next.totalCommission == paid && j.next.revShare == 0.0
              && j.next.cpaQualified == r.cpaQualified as real && j.next.qftd == r.cpaQualified
              && j.next.clicks == r.clicks && j.next.registrations == r.registrations && j.next.ftds == r.ftds
              && j.next.deposit == r.deposit && Plain(j.next)
  {
    assert (rows + [r])[..|rows|] == rows && (faults + [fault])[..|rows|] == faults;
  }

  /**
   A Betnacional row becomes one job of its own key and figures: the CPA value counts as count, value and commission
   alike.
   */
  lemma BetnacionalRowIsPaidByValue(rows: seq<MetricsRow>, r: MetricsRow, faults: seq<Fault>, fault: Fault)
    requires |rows| == |faults|
    ensures var before, after := BetnacionalJobs(rows, faults), BetnacionalJobs(rows + [r], faults + [fault]);
            |after| == |before| + 1 && after[..|before|] == before &&
            var j := after[|before|];
            && j.key == Key("betnacional", r.campaign, r.date) && j.keepsOthers && j.fault == fault
            && j.next.cpaValue == r.cpaValue && j.next.totalCommission == r.cpaValue
            && j.next.cpaQualified == r.cpaValue
            && j.next.revShare == 0.0 && j.next.qftd == r.ftds && j.next.ftds == r.ftds
            && j.next.clicks == r.clicks && j.next.registrations == r.registrations && j.next.deposit == r.deposit
            && Plain(j.next)
  {
    assert (rows + [r])[..|rows|] == rows && (faults + [fault])[..|rows|] == faults;
  }

  /**
   A written job leaves its figures in the table, amounts to the cent, and logs what was there and what it wrote exactly
   if that matters; other rows and earlier logs stay.
   */
  lemma JobStores(s: Store, j: Job)
    requires !j.fault.UpsertThrows? && Integral(j.next.cpaQualified)
    ensures var after := SyncRow(s, j);
            && j.key in after.table
            && var v := after.table[j.key];
               && v.clicks == j.next.clicks && v.registrations == j.next.registrations && v.ftds == j.next.ftds
               && v.qftd == j.next.qftd
               && v.cpaQualified == j.next.cpaQualified && v.deposit == Round2(j.next.deposit)
               && v.revShare == Round2(j.next.revShare)
               && v.cpaValue == Round2(j.next.cpaValue) && v.totalCommission == Round2(j.next.totalCommission)
               && (!j.keepsOthers && Plain(j.next) ==> Plain(v))
               && (j.keepsOthers && j.key in s.table ==> SameOthers(v, s.table[j.key]))
               && (forall k | k != j.key ::
                   (k in after.table <==> k in s.table) && (k in s.table ==> after.table[k] == s.table[k]))
               && (if j.fault.Works? && (j.key in s.table ==> !AlikeForBalances(s.table[j.key], j.next)) then
                     |after.logs| == |s.logs| + 1 && after.logs[..|s.logs|] == s.logs
                         && after.logs[|s.logs|].key == j.key
                     && after.logs[|s.logs|].prev == (if j.key in s.table then Some(s.table[j.key]) else None)
                     && after.logs[|s.logs|].next.cpaValue == v.cpaValue
                     && after.logs[|s.logs|].next.deposit == v.deposit
                     && after.logs[|s.logs|].next.cpaQualified == v.cpaQualified
                   else after.logs == s.logs)
  {
    MattersExactlyWhen(Lookup(s.table, j.key), j.next);
  }
}
