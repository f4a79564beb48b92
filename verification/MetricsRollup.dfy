/**
 The metrics report of the affiliate API: who may be reported on, and one pass over the grouped rows that
 feeds five accounts -- the summary, by house, by day, by affiliate, and the single records.
 */
module MetricsRollup {
  import opened Basics
  import opened Referral

  // ----- Who may be reported on -----

  datatype User = User(id: string, referredBy: Option<string>, isAffiliate: bool, active: bool, deleted: bool)

  datatype Affiliate = Affiliate(id: string, level: nat)

  predicate Reportable(u: User) {
    u.isAffiliate && u.active && !u.deleted
  }

  ghost predicate DistinctIds(users: seq<User>) {
    forall i, j | 0 <= i < j < |users| :: users[i].id != users[j].id
  }

  /** Referrals of active affiliates. */
  function RefsOf(users: seq<User>): Refs {
    if users == [] then map[]
    else
      var refs := RefsOf(users[1..]);
      if Reportable(users[0]) && users[0].referredBy.Some? then refs[users[0].id := users[0].referredBy.value] else refs
  }

  function Children(users: seq<User>, parents: seq<string>): seq<string> {
    if users == [] then []
    else
      (if Reportable(users[0]) && users[0].referredBy.Some? && users[0].referredBy.value in parents
          then [users[0].id] else [])
      + Children(users[1..], parents)
  }

  lemma {:induction false} RefsOfKnown(users: seq<User>, id: string)
    requires id in RefsOf(users)
    ensures exists i | 0 <= i < |users| :: users[i].id == id
  {
    if users[0].id != id {
      RefsOfKnown(users[1..], id);
      var i :| 0 <= i < |users[1..]| && users[1..][i].id == id;
      assert users[i + 1].id == id;
    }
  }

  lemma {:induction false} ChildrenMean(users: seq<User>, parents: seq<string>, id: string)
    requires DistinctIds(users)
    ensures id in Children(users, parents) <==> id in RefsOf(users) && RefsOf(users)[id] in parents
  {
    if users != [] {
      assert DistinctIds(users[1..]);
      ChildrenMean(users[1..], parents, id);
      if users[0].id == id && id in RefsOf(users[1..]) {
        RefsOfKnown(users[1..], id);
      }
    }
  }

  /** Only active affiliates that are not deleted are below those who referred them. */
  lemma {:induction false} RefsMean(users: seq<User>, child: string, parent: string)
    requires DistinctIds(users)
    ensures (child in RefsOf(users) && RefsOf(users)[child] == parent) <==>
            exists u | u in users ::
                u.id == child && u.isAffiliate && u.active && !u.deleted && u.referredBy == Some(parent)
  {
    if users != [] {
      assert DistinctIds(users[1..]);
      RefsMean(users[1..], child, parent);
      if users[0].id == child {
        if child in RefsOf(users[1..]) {
          RefsOfKnown(users[1..], child);
        }
        assert forall i | 0 < i < |users| :: users[i].id != child;
        assert forall u | u in users[1..] :: u.id != child;
      }
      assert forall u | u in users[1..] :: u in users;
    }
  }

  /** The users exactly `n` referrals below the owner. */
  ghost predicate LevelIs(refs: Refs, owner: string, n: nat, ids: seq<string>) {
    forall id :: id in ids <==> AncestorAt(refs, id, n) == Some(owner)
  }

  /** Every user with every level, up to `n`, at which the owner is above; on a cycle that can be several. */
  ghost predicate Collected(refs: Refs, owner: string, n: nat, result: seq<Affiliate>) {
    forall id, level: nat :: Affiliate(id, level) in result <==>
        level <= n && AncestorAt(refs, id, level) == Some(owner)
  }

  function AtLevel(ids: seq<string>, level: nat): seq<Affiliate> {
    seq(|ids|, i requires 0 <= i < |ids| => Affiliate(ids[i], level))
  }

  lemma AtLevelMeans(ids: seq<string>, level: nat, a: Affiliate)
    ensures a in AtLevel(ids, level) <==> a.level == level && a.id in ids
  {
    if a.level == level && a.id in ids {
      var i :| 0 <= i < |ids| && ids[i] == a.id;
      assert AtLevel(ids, level)[i] == a;
    }
  }

  lemma LevelBelow(users: seq<User>, owner: string, n: nat, ids: seq<string>)
    requires DistinctIds(users) && LevelIs(RefsOf(users), owner, n, ids)
    ensures LevelIs(RefsOf(users), owner, n + 1, Children(users, ids))
  {
    forall id
      ensures id in Children(users, ids) <==> AncestorAt(RefsOf(users), id, n + 1) == Some(owner)
    {
      ChildrenMean(users, ids, id);
    }
  }

  lemma CollectedBelow(refs: Refs, owner: string, n: nat, result: seq<Affiliate>, ids: seq<string>)
    requires Collected(refs, owner, n, result) && LevelIs(refs, owner, n + 1, ids)
    ensures Collected(refs, owner, n + 1, result + AtLevel(ids, n + 1))
  {
    forall id, level: nat
      ensures Affiliate(id, level) in result + AtLevel(ids, n + 1) <==>
          level <= n + 1 && AncestorAt(refs, id, level) == Some(owner)
    {
      AtLevelMeans(ids, n + 1, Affiliate(id, level));
    }
  }

  lemma {:induction false} NobodyBelow(refs: Refs, owner: string, n: nat, k: nat, result: seq<Affiliate>)
    requires n <= k && LevelIs(refs, owner, n + 1, []) && Collected(refs, owner, n, result)
    ensures Collected(refs, owner, k, result)
    decreases k - n
  {
    if n < k {
      CollectedBelow(refs, owner, n, result, []);
      assert result + AtLevel([], n + 1) == result;
      var m := n + 2;
      forall id
        ensures AncestorAt(refs, id, m) != Some(owner)
      {
        assert id in refs ==> refs[id] !in [];
      }
      NobodyBelow(refs, owner, n + 1, k, result);
    }
  }

  method LoadAllowedAffiliates(users: seq<User>, owner: string) returns (result: seq<Affiliate>)
    requires DistinctIds(users)
    ensures Collected(RefsOf(users), owner, NETWORK_LEVEL_CAP, result)
  {
    ghost var refs := RefsOf(users);
    result := [Affiliate(owner, 0)];
    var currentIds := [owner];
    var level := 1;
    while |currentIds| > 0 && level <= NETWORK_LEVEL_CAP
      invariant 1 <= level <= NETWORK_LEVEL_CAP + 1 && currentIds != []
      invariant Collected(refs, owner, level - 1, result) && LevelIs(refs, owner, level - 1, currentIds)
      decreases NETWORK_LEVEL_CAP + 1 - level
    {
      var children := Children(users, currentIds);
      LevelBelow(users, owner, level - 1, currentIds);
      if |children| == 0 {
        NobodyBelow(refs, owner, level - 1, NETWORK_LEVEL_CAP, result);
        return;
      }
      CollectedBelow(refs, owner, level - 1, result, children);
      result := result + AtLevel(children, level);
      currentIds := children;
      level := level + 1;
    }
  }

  // ----- Summaries -----

  datatype Summary = Summary(clicks: int, registrations: int, ftds: int, deposits: int, depositAmount: real,
                             revShare: real, qualifiedCpa: int, cpaAmount: real, totalCommission: real)

  const EMPTY_SUMMARY := Summary(0, 0, 0, 0, 0.0, 0.0, 0, 0.0, 0.0)

  function AddSummary(target: Summary, source: Summary): Summary {
    Summary(target.clicks + source.clicks, target.registrations + source.registrations, target.ftds + source.ftds,
            target.deposits + source.deposits, target.depositAmount + source.depositAmount,
                target.revShare + source.revShare,
            target.qualifiedCpa + source.qualifiedCpa, target.cpaAmount + source.cpaAmount,
            target.totalCommission + source.totalCommission)
  }

  /** The sums of a grouped row; a sum over no value is missing. */
  datatype RowSum = RowSum(clicks: Option<int>, registrations: Option<int>, ftds: Option<int>, qftd: Option<int>,
                           deposit: Option<real>, revShare: Option<real>, cpaQualified: Option<int>,
                               cpaValue: Option<real>, totalCommission: Option<real>)

  function OrZero(x: Option<int>): int {
    if x.Some? then x.value else 0
  }

  function AmountOrZero(x: Option<real>): real {
    if x.Some? then x.value else 0.0
  }

  function MetricFromRow(s: RowSum): Summary {
    Summary(OrZero(s.clicks), OrZero(s.registrations), OrZero(s.ftds), if s.qftd.Some?
        then s.qftd.value else OrZero(s.ftds),
            AmountOrZero(s.deposit), AmountOrZero(s.revShare), OrZero(s.cpaQualified), AmountOrZero(s.cpaValue),
            AmountOrZero(s.totalCommission))
  }

  /** A grouped row; `date` is the text of its day. */
  datatype Row = Row(campaign: string, house: string, date: string, sums: RowSum)

  datatype Link = Link(user: string, campaign: string, house: string)

  function LinkKey(campaign: string, house: string): string {
    campaign + "::" + house
  }

  function LinkOwners(links: seq<Link>): map<string, string> {
    if links == [] then map[]
    else
      var l := links[|links| - 1];
      LinkOwners(links[..|links| - 1])[LinkKey(l.campaign, l.house) := l.user]
  }

  /** One row's contribution: where it is counted, and how much. */
  datatype Item = Item(date: string, house: string, user: string, metric: Summary)

  /** The user a row counts for, if that user is reported on. */
  function OwnerOf(owners: map<string, string>, targets: seq<string>, row: Row): Option<string> {
    var key := LinkKey(row.campaign, row.house);
    if key in owners && owners[key] != "" && owners[key] in targets then Some(owners[key]) else None
  }

  function Items(owners: map<string, string>, targets: seq<string>, rows: seq<Row>): seq<Item> {
    if rows == [] then []
    else
      var row := rows[|rows| - 1];
      var owner := OwnerOf(owners, targets, row);
      Items(owners, targets, rows[..|rows| - 1])
      + if owner.Some? then [Item(row.date, row.house, owner.value, MetricFromRow(row.sums))] else []
  }

  /** The five ways of grouping the contributions. */
  datatype Group = ByHouse | ByDay | ByAffiliate | ByRecord

  function RecordKey(date: string, house: string, user: string): string {
    date + "::" + house + "::" + user
  }

  function GroupKey(g: Group, i: Item): string {
    match g
    case ByHouse => i.house
    case ByDay => i.date
    case ByAffiliate => i.user
    case ByRecord => RecordKey(i.date, i.house, i.user)
  }

  function SumOf(items: seq<Item>): Summary {
    if items == [] then EMPTY_SUMMARY else AddSummary(SumOf(items[..|items| - 1]), items[|items| - 1].metric)
  }

  function SumFor(items: seq<Item>, g: Group, key: string): Summary {
    if items == [] then EMPTY_SUMMARY
    else
      var i := items[|items| - 1];
      var before := SumFor(items[..|items| - 1], g, key);
      if GroupKey(g, i) == key then AddSummary(before, i.metric) else before
  }

  predicate Occurs(items: seq<Item>, g: Group, key: string) {
    exists n | 0 <= n < |items| :: GroupKey(g, items[n]) == key
  }

  // ----- Accounts: maps from text to summary, in the order of first use -----

  /** An entry keeps the contribution it was opened with, for the fields a record shows. */
  datatype Entry = Entry(key: string, first: Item, metric: Summary)

  function Add(account: seq<Entry>, key: string, i: Item): seq<Entry> {
    if account == [] then [Entry(key, i, i.metric)]
    else if account[0].key == key then [account[0].(metric := AddSummary(account[0].metric, i.metric))] + account[1..]
    else [account[0]] + Add(account[1..], key, i)
  }

  function Account(items: seq<Item>, g: Group): seq<Entry> {
    if items == [] then []
    else
      var i := items[|items| - 1];
      Add(Account(items[..|items| - 1], g), GroupKey(g, i), i)
  }

  function SumOfEntries(account: seq<Entry>): Summary {
    if account == [] then EMPTY_SUMMARY else AddSummary(SumOfEntries(account[1..]), account[0].metric)
  }

  lemma {:induction false} AddAdds(account: seq<Entry>, key: string, i: Item)
    ensures SumOfEntries(Add(account, key, i)) == AddSummary(SumOfEntries(account), i.metric)
  {
    var after := Add(account, key, i);
    if account == [] {
      assert after[1..] == [];
    } else if account[0].key == key {
      assert after[1..] == account[1..];
    } else {
      AddAdds(account[1..], key, i);
      assert after[1..] == Add(account[1..], key, i);
    }
  }

  /** Each of the accounts holds the whole, component by component. */
  lemma {:induction false} AccountsHoldTheSummary(items: seq<Item>, g: Group)
    ensures SumOfEntries(Account(items, g)) == SumOf(items)
  {
    if items != [] {
      var i := items[|items| - 1];
      AccountsHoldTheSummary(items[..|items| - 1], g);
      AddAdds(Account(items[..|items| - 1], g), GroupKey(g, i), i);
    }
  }

  function Keys(account: seq<Entry>): seq<string> {
    if account == [] then [] else [account[0].key] + Keys(account[1..])
  }

  predicate DistinctKeys(account: seq<Entry>) {
    account == [] || (account[0].key !in Keys(account[1..]) && DistinctKeys(account[1..]))
  }

  function MetricAt(account: seq<Entry>, key: string): Summary {
    if account == [] then EMPTY_SUMMARY else if account[0].key == key then account[0].metric
    else MetricAt(account[1..], key)
  }

  lemma {:induction false} AddAt(account: seq<Entry>, key: string, i: Item, other: string)
    requires DistinctKeys(account)
    ensures var after := Add(account, key, i);
            && DistinctKeys(after)
            && (other in Keys(after) <==> other in Keys(account) || other == key)
            && MetricAt(after, other) == if other == key
                then AddSummary(MetricAt(account, key), i.metric) else MetricAt(account, other)
  {
    var after := Add(account, key, i);
    if account == [] {
      assert after[1..] == [];
    } else if account[0].key == key {
      assert after[1..] == account[1..];
    } else {
      AddAt(account[1..], key, i, other);
      AddAt(account[1..], key, i, account[0].key);
      assert after[1..] == Add(account[1..], key, i);
    }
  }

  lemma OccursAppends(items: seq<Item>, i: Item, g: Group, key: string)
    ensures Occurs(items + [i], g, key) <==> Occurs(items, g, key) || GroupKey(g, i) == key
  {
    if Occurs(items, g, key) {
      var n :| 0 <= n < |items| && GroupKey(g, items[n]) == key;
      assert (items + [i])[n] == items[n];
    }
    if GroupKey(g, i) == key {
      assert (items + [i])[|items|] == i;
    }
  }

  /** Key by key an account holds exactly the contributions of that key, and each key once. */
  lemma {:induction false} AccountHolds(items: seq<Item>, g: Group, key: string)
    ensures var account := Account(items, g);
            && DistinctKeys(account)
            && (key in Keys(account) <==> Occurs(items, g, key))
            && MetricAt(account, key) == SumFor(items, g, key)
  {
    if items != [] {
      var init, i := items[..|items| - 1], items[|items| - 1];
      AccountHolds(init, g, key);
      AddAt(Account(init, g), GroupKey(g, i), i, key);
      OccursAppends(init, i, g, key);
      assert items == init + [i];
    }
  }

  // ----- Records -----

  /** An entry of the records is filed under the key of its own date, house and affiliate. */
  predicate Filed(account: seq<Entry>) {
    forall e | e in account :: e.key == RecordKey(e.first.date, e.first.house, e.first.user)
  }

  lemma {:induction false} AddFiled(account: seq<Entry>, i: Item)
    requires Filed(account)
    ensures Filed(Add(account, RecordKey(i.date, i.house, i.user), i))
  {
    if account != [] && account[0].key != RecordKey(i.date, i.house, i.user) {
      AddFiled(account[1..], i);
    }
  }

  lemma {:induction false} RecordsAreFiled(items: seq<Item>)
    ensures Filed(Account(items, ByRecord))
  {
    if items != [] {
      RecordsAreFiled(items[..|items| - 1]);
      AddFiled(Account(items[..|items| - 1], ByRecord), items[|items| - 1]);
    }
  }

  lemma {:induction false} KeysAt(account: seq<Entry>, n: nat)
    requires n < |account|
    ensures |Keys(account)| == |account| && Keys(account)[n] == account[n].key
  {
    if n > 0 {
      KeysAt(account[1..], n - 1);
    } else if |account| > 1 {
      KeysAt(account[1..], 0);
    }
  }

  lemma {:induction false} DistinctAt(account: seq<Entry>, m: nat, n: nat)
    requires DistinctKeys(account) && m < n < |account|
    ensures account[m].key != account[n].key
  {
    if m == 0 {
      KeysAt(account[1..], n - 1);
    } else {
      DistinctAt(account[1..], m - 1, n - 1);
    }
  }

  /** No two records share date, house and affiliate. */
  lemma RecordsAreDistinct(items: seq<Item>, m: nat, n: nat)
    requires m < n < |Account(items, ByRecord)|
    ensures var a, b := Account(items, ByRecord)[m].first, Account(items, ByRecord)[n].first;
            a.date != b.date || a.house != b.house || a.user != b.user
  {
    AccountHolds(items, ByRecord, "");
    RecordsAreFiled(items);
    DistinctAt(Account(items, ByRecord), m, n);
  }

  /** Days are texts of one length and slugs have no colon, so the joined key tells the three parts apart. */
  lemma RecordKeyIsInjective(a: Item, b: Item)
    requires |a.date| == |b.date| && ':' !in a.house && ':' !in b.house
    requires RecordKey(a.date, a.house, a.user) == RecordKey(b.date, b.house, b.user)
    ensures a.date == b.date && a.house == b.house && a.user == b.user
  {
    var k := RecordKey(a.date, a.house, a.user);
    assert a.date == k[..|a.date|] && b.date == k[..|a.date|];
    var rest := k[|a.date| + 2..];
    assert rest == a.house + ("::" + a.user) && rest == b.house + ("::" + b.user);
    ColonAfter(a.house, "::" + a.user);
    ColonAfter(b.house, "::" + b.user);
    assert a.house == rest[..|a.house|] && b.house == rest[..|b.house|];
    assert a.user == rest[|a.house| + 2..] && b.user == rest[|b.house| + 2..];
  }

  /** The position of the first colon. */
  function FirstColon(s: string): nat {
    if s == "" || s[0] == ':' then 0 else 1 + FirstColon(s[1..])
  }

  lemma {:induction false} ColonAfter(house: string, rest: string)
    requires ':' !in house && rest != "" && rest[0] == ':'
    ensures FirstColon(house + rest) == |house|
  {
    if house == "" {
      assert house + rest == rest;
    } else {
      assert (house + rest)[1..] == house[1..] + rest;
      ColonAfter(house[1..], rest);
    }
  }

  /** The contributions of one day, house and affiliate. */
  function SumForTriple(items: seq<Item>, date: string, house: string, user: string): Summary {
    if items == [] then EMPTY_SUMMARY
    else
      var i := items[|items| - 1];
      var before := SumForTriple(items[..|items| - 1], date, house, user);
      if i.date == date && i.house == house && i.user == user then AddSummary(before, i.metric) else before
  }

  /** With plain keys a record holds the contributions of its own day, house and affiliate, and no others. */
  lemma {:induction false} RecordsHoldTheirOwn(items: seq<Item>, at: Item)
    requires ':' !in at.house && forall n | 0 <= n < |items| :: |items[n].date| == |at.date| && ':' !in items[n].house
    ensures SumFor(items, ByRecord, RecordKey(at.date, at.house, at.user)) ==
        SumForTriple(items, at.date, at.house, at.user)
  {
    if items != [] {
      RecordsHoldTheirOwn(items[..|items| - 1], at);
      var i := items[|items| - 1];
      if RecordKey(i.date, i.house, i.user) == RecordKey(at.date, at.house, at.user) {
        RecordKeyIsInjective(i, at);
      }
    }
  }

  // ----- The report -----

  /** The first id outside a scope; an empty one does not count as found. */
  function FirstOutside(ids: seq<string>, scope: seq<string>): string {
    if ids == [] then "" else if ids[0] !in scope then ids[0] else FirstOutside(ids[1..], scope)
  }

  /** `assertMetricsScope` does not throw. */
  predicate InScope(allowed: seq<string>, targets: seq<string>, recordIds: seq<string>, groupedIds: seq<string>) {
    FirstOutside(targets, allowed) == "" && FirstOutside(recordIds, targets) == ""
        && FirstOutside(groupedIds, targets) == ""
  }

  lemma {:induction false} NobodyOutside(ids: seq<string>, scope: seq<string>)
    requires forall id | id in ids :: id in scope
    ensures FirstOutside(ids, scope) == ""
  {
    if ids != [] {
      assert ids[0] in ids;
      NobodyOutside(ids[1..], scope);
    }
  }

  datatype Report = Report(summary: Summary, byHouse: seq<Entry>, byDay: seq<Entry>, byAffiliate: seq<Entry>,
                           records: seq<Entry>)

  datatype Response = OwnerNotFound | OutsideNetwork | ScopeLeak | Metrics(targets: seq<string>, report: Report)

  /** The five accounts of a list of contributions. */
  ghost predicate Accounts(r: Report, items: seq<Item>) {
    && r.summary == SumOf(items)
    && r.byHouse == Account(items, ByHouse) && r.byDay == Account(items, ByDay)
    && r.byAffiliate == Account(items, ByAffiliate) && r.records == Account(items, ByRecord)
  }

  method Accumulate(owners: map<string, string>, targets: seq<string>, rows: seq<Row>) returns (r: Report)
    ensures Accounts(r, Items(owners, targets, rows))
  {
    r := Report(EMPTY_SUMMARY, [], [], [], []);
    for n := 0 to |rows|
      invariant Accounts(r, Items(owners, targets, rows[..n]))
    {
      var row := rows[n];
      ghost var before := Items(owners, targets, rows[..n]);
      assert rows[..n + 1][..n] == rows[..n];
      var owner := OwnerOf(owners, targets, row);
      if owner.None? {
        assert before + [] == before;
        continue;
      }
      var item := Item(row.date, row.house, owner.value, MetricFromRow(row.sums));
      assert (before + [item])[..|before|] == before;
      r := r.(summary := AddSummary(r.summary, item.metric), byHouse := Add(r.byHouse, item.house, item),
              byAffiliate := Add(r.byAffiliate, item.user, item), byDay := Add(r.byDay, item.date, item));
      r := r.(records := Add(r.records, RecordKey(item.date, item.house, item.user), item));
    }
    assert rows[..|rows|] == rows;
  }

  /** All five accounts come to the same in every component. */
  ghost predicate Balanced(r: Report) {
    && SumOfEntries(r.byHouse) == r.summary && SumOfEntries(r.byDay) == r.summary
    && SumOfEntries(r.byAffiliate) == r.summary && SumOfEntries(r.records) == r.summary
  }

  function ZeroEntry(id: string): Entry {
    Entry(id, Item("", "", id, EMPTY_SUMMARY), EMPTY_SUMMARY)
  }

  /** Zeroes for the affiliates among the targets. */
  function ZeroEntries(allowed: seq<string>, targets: seq<string>): seq<Entry> {
    if allowed == [] then []
    else if allowed[0] in targets then [ZeroEntry(allowed[0])] + ZeroEntries(allowed[1..], targets)
    else ZeroEntries(allowed[1..], targets)
  }

  lemma {:induction false} ZeroesAddUp(allowed: seq<string>, targets: seq<string>)
    ensures SumOfEntries(ZeroEntries(allowed, targets)) == EMPTY_SUMMARY
  {
    if allowed != [] {
      ZeroesAddUp(allowed[1..], targets);
      if allowed[0] in targets {
        var rest := ZeroEntries(allowed[1..], targets);
        assert ([ZeroEntry(allowed[0])] + rest)[1..] == rest;
      }
    }
  }

  function UsersOf(account: seq<Entry>): seq<string> {
    if account == [] then [] else [account[0].first.user] + UsersOf(account[1..])
  }

  /** Everyone an account speaks of is a target. */
  ghost predicate Within(account: seq<Entry>, targets: seq<string>) {
    forall id | id in UsersOf(account) :: id in targets
  }

  lemma {:induction false} AddWithin(account: seq<Entry>, key: string, i: Item, targets: seq<string>)
    requires Within(account, targets) && i.user in targets
    ensures Within(Add(account, key, i), targets)
  {
    var after := Add(account, key, i);
    if account != [] {
      assert forall id | id in UsersOf(account[1..]) :: id in UsersOf(account);
      assert account[0].first.user in UsersOf(account);
      if account[0].key != key {
        AddWithin(account[1..], key, i, targets);
        assert after[1..] == Add(account[1..], key, i);
      } else {
        assert after[1..] == account[1..];
      }
    }
  }

  /** Only targets' rows are counted, so records and groups speak of targets only. */
  lemma {:induction false} CountedAreTargets(owners: map<string, string>, targets: seq<string>, rows: seq<Row>,
                                             g: Group)
    ensures Within(Account(Items(owners, targets, rows), g), targets)
    ensures forall i | i in Items(owners, targets, rows) :: i.user in targets
  {
    if rows != [] {
      var init, row := rows[..|rows| - 1], rows[|rows| - 1];
      CountedAreTargets(owners, targets, init, g);
      var before, owner := Items(owners, targets, init), OwnerOf(owners, targets, row);
      if owner.Some? {
        var i := Item(row.date, row.house, owner.value, MetricFromRow(row.sums));
        assert (before + [i])[..|before|] == before;
        AddWithin(Account(before, g), GroupKey(g, i), i, targets);
      } else {
        assert before + [] == before;
      }
    }
  }

  /** The keys of the affiliate account are targets as well. */
  lemma AffiliateKeysAreTargets(owners: map<string, string>, targets: seq<string>, rows: seq<Row>, id: string)
    requires id in Keys(Account(Items(owners, targets, rows), ByAffiliate))
    ensures id in targets
  {
    var items := Items(owners, targets, rows);
    CountedAreTargets(owners, targets, rows, ByAffiliate);
    AccountHolds(items, ByAffiliate, id);
    var n :| 0 <= n < |items| && GroupKey(ByAffiliate, items[n]) == id;
    assert items[n] in items;
  }

  function Ids(affiliates: seq<Affiliate>): seq<string> {
    if affiliates == [] then [] else [affiliates[0].id] + Ids(affiliates[1..])
  }

  lemma {:induction false} IdsMean(affiliates: seq<Affiliate>, id: string)
    ensures id in Ids(affiliates) <==> exists a | a in affiliates :: a.id == id
  {
    if affiliates != [] {
      IdsMean(affiliates[1..], id);
    }
  }

  /** `id` is the owner or at most ten referrals of active affiliates below. */
  ghost predicate InNetwork(users: seq<User>, owner: string, id: string) {
    exists level: nat | level <= NETWORK_LEVEL_CAP :: AncestorAt(RefsOf(users), id, level) == Some(owner)
  }

  lemma AllowedAreTheNetwork(users: seq<User>, owner: string, affiliates: seq<Affiliate>, id: string)
    requires Collected(RefsOf(users), owner, NETWORK_LEVEL_CAP, affiliates)
    ensures id in Ids(affiliates) <==> InNetwork(users, owner, id)
  {
    IdsMean(affiliates, id);
    if InNetwork(users, owner, id) {
      var level: nat :| level <= NETWORK_LEVEL_CAP && AncestorAt(RefsOf(users), id, level) == Some(owner);
      assert Affiliate(id, level) in affiliates;
    }
    if a :| a in affiliates && a.id == id {
      assert Affiliate(id, a.level) in affiliates;
    }
  }

  /** An absent or empty affiliate means everyone, "me" means the owner. */
  function Requested(owner: string, affiliate: Option<string>): Option<string> {
    if affiliate.None? || affiliate.value == "" then None
    else if affiliate.value == "me" then Some(owner)
    else affiliate
  }

  predicate NoCampaign(links: seq<Link>) {
    forall l | l in links :: l.campaign == ""
  }

  /** Without campaigns there are zeroes for the targets among the allowed, and nothing else. */
  ghost predicate ShowsNothing(r: Report, allowed: seq<string>, targets: seq<string>) {
    && r.summary == Summary(0, 0, 0, 0, 0.0, 0.0, 0, 0.0, 0.0) && r.byHouse == [] && r.byDay == [] && r.records == []
    && (forall id :: id in Keys(r.byAffiliate) <==> id in allowed && id in targets)
    && (forall e | e in r.byAffiliate :: e.metric == Summary(0, 0, 0, 0, 0.0, 0.0, 0, 0.0, 0.0))
  }

  lemma {:induction false} ZeroesAre(allowed: seq<string>, targets: seq<string>)
    ensures forall id :: id in Keys(ZeroEntries(allowed, targets)) <==> id in allowed && id in targets
    ensures forall e | e in ZeroEntries(allowed, targets) :: e.metric == EMPTY_SUMMARY
  {
    if allowed != [] {
      ZeroesAre(allowed[1..], targets);
      if allowed[0] in targets {
        var rest := ZeroEntries(allowed[1..], targets);
        assert ([ZeroEntry(allowed[0])] + rest)[1..] == rest;
      }
    }
  }

  /** The pass and its check: `links` are the targets' links, `rows` the grouped rows of their campaigns. */
  method BuildReport(allowed: seq<string>, targets: seq<string>, links: seq<Link>, rows: seq<Row>) returns (r: Response)
    requires forall id | id in targets :: id in allowed
    ensures r.Metrics? && r.targets == targets && Balanced(r.report)
    ensures !NoCampaign(links) ==> Accounts(r.report, Items(LinkOwners(links), targets, rows))
    ensures NoCampaign(links) ==> ShowsNothing(r.report, allowed, targets)
  {
    if NoCampaign(links) {
      ZeroesAddUp(allowed, targets);
      ZeroesAre(allowed, targets);
      return Metrics(targets, Report(EMPTY_SUMMARY, [], [], ZeroEntries(allowed, targets), []));
    }
    var owners := LinkOwners(links);
    ghost var items := Items(owners, targets, rows);
    var report := Accumulate(owners, targets, rows);
    CountedAreTargets(owners, targets, rows, ByRecord);
    forall id | id in Keys(report.byAffiliate)
      ensures id in targets
    {
      AffiliateKeysAreTargets(owners, targets, rows, id);
    }
    NobodyOutside(targets, allowed);
    NobodyOutside(UsersOf(report.records), targets);
    NobodyOutside(Keys(report.byAffiliate), targets);
    if !InScope(allowed, targets, UsersOf(report.records), Keys(report.byAffiliate)) {
      return ScopeLeak;
    }
    AccountsHoldTheSummary(items, ByHouse);
    AccountsHoldTheSummary(items, ByDay);
    AccountsHoldTheSummary(items, ByAffiliate);
    AccountsHoldTheSummary(items, ByRecord);
    r := Metrics(targets, report);
  }

  /** The links among `links` that belong to the targets. */
  function LinksOfTargets(links: seq<Link>, targets: seq<string>): seq<Link> {
    if links == [] then []
    else (if links[0].user in targets then [links[0]] else []) + LinksOfTargets(links[1..], targets)
  }

  /**
   A report is refused only for a requested affiliate outside the owner's network; the later scope check never
   fails.  What is returned is balanced: summary, houses, days, affiliates and records agree in all components.
   */
  method GetMetrics(users: seq<User>, owner: string, affiliate: Option<string>, links: seq<Link>, rows: seq<Row>)
    returns (r: Response)
    requires DistinctIds(users)
    ensures r.OwnerNotFound? <==> forall u | u in users :: u.id != owner
    ensures !r.OwnerNotFound? ==>
              (r.OutsideNetwork? <==>
               Requested(owner, affiliate).Some? && !InNetwork(users, owner, Requested(owner, affiliate).value))
    ensures !r.OwnerNotFound? ==>
              (r.OutsideNetwork? <==>
               affiliate !in {None, Some(""), Some("me")} && !InNetwork(users, owner, affiliate.value))
    ensures !r.ScopeLeak?
    ensures r.Metrics? ==> Balanced(r.report)
    ensures r.Metrics? && NoCampaign(LinksOfTargets(links, r.targets)) ==>
              r.report.summary == Summary(0, 0, 0, 0, 0.0, 0.0, 0, 0.0, 0.0) && r.report.records == []
              && forall id :: id in Keys(r.report.byAffiliate) <==> id in r.targets
    ensures r.Metrics? && affiliate in {None, Some("")} ==> forall id :: id in r.targets <==>
        InNetwork(users, owner, id)
    ensures r.Metrics? && affiliate == Some("me") ==> r.targets == [owner]
    ensures r.Metrics? && affiliate !in {None, Some(""), Some("me")} ==>
              r.targets == [affiliate.value] && InNetwork(users, owner, affiliate.value)
    ensures r.Metrics? && !NoCampaign(LinksOfTargets(links, r.targets)) ==>
              Accounts(r.report, Items(LinkOwners(LinksOfTargets(links, r.targets)), r.targets, rows))
  {
    if forall u | u in users :: u.id != owner {
      return OwnerNotFound;
    }
    var affiliates := LoadAllowedAffiliates(users, owner);
    var allowed := Ids(affiliates);
    forall id
      ensures id in allowed <==> InNetwork(users, owner, id)
    {
      AllowedAreTheNetwork(users, owner, affiliates, id);
    }
    assert InNetwork(users, owner, owner) by {
      assert AncestorAt(RefsOf(users), owner, 0) == Some(owner);
    }
    var requested := Requested(owner, affiliate);
    if requested.Some? && requested.value !in allowed {
      return OutsideNetwork;
    }
    var targets := if requested.Some? then [requested.value] else allowed;
    r := BuildReport(allowed, targets, LinksOfTargets(links, targets), rows);
  }

  // ----- What is counted, in plain terms -----

  lemma {:induction false} LinksOfTargetsMean(links: seq<Link>, targets: seq<string>, l: Link)
    ensures l in LinksOfTargets(links, targets) <==> l in links && l.user in targets
  {
    if links != [] {
      LinksOfTargetsMean(links[1..], targets, l);
    }
  }

  /** Link `i` is the last of its campaign and house, as the joined text tells them. */
  predicate IsLastLink(links: seq<Link>, i: nat, campaign: string, house: string) {
    && i < |links| && links[i].campaign + "::" + links[i].house == campaign + "::" + house
    && forall j | i < j < |links| :: links[j].campaign + "::" + links[j].house != campaign + "::" + house
  }

  /** A row belongs to the user of the last link with its campaign and house, or to nobody. */
  lemma {:induction false} OwnerIsOfTheLastLink(links: seq<Link>, campaign: string, house: string)
    ensures var owners, key := LinkOwners(links), LinkKey(campaign, house);
            if key in owners then exists i: nat :: IsLastLink(links, i, campaign, house) && owners[key] == links[i].user
            else forall i | 0 <= i < |links| :: links[i].campaign + "::" + links[i].house != campaign + "::" + house
  {
    if links != [] {
      var n := |links| - 1;
      OwnerIsOfTheLastLink(links[..n], campaign, house);
      var owners, key := LinkOwners(links), LinkKey(campaign, house);
      if LinkKey(links[n].campaign, links[n].house) == key {
        assert IsLastLink(links, n, campaign, house);
      } else if key in owners {
        var i: nat :| IsLastLink(links[..n], i, campaign, house) && owners[key] == links[..n][i].user;
        assert IsLastLink(links, i, campaign, house);
      } else {
        assert forall i | 0 <= i < n :: links[i] == links[..n][i];
      }
    }
  }

  /** The figures of a grouped row, missing sums counting as zero and missing qualified deposits as first deposits. */
  predicate ShowsFigures(m: Summary, s: RowSum) {
    && m.clicks == (match s.clicks case None => 0 case Some(x) => x)
    && m.registrations == (match s.registrations case None => 0 case Some(x) => x)
    && m.ftds == (match s.ftds case None => 0 case Some(x) => x)
    && m.deposits == (match s.qftd case Some(x) => x case None => m.ftds)
    && m.depositAmount == (match s.deposit case None => 0.0 case Some(x) => x)
    && m.revShare == (match s.revShare case None => 0.0 case Some(x) => x)
    && m.qualifiedCpa == (match s.cpaQualified case None => 0 case Some(x) => x)
    && m.cpaAmount == (match s.cpaValue case None => 0.0 case Some(x) => x)
    && m.totalCommission == (match s.totalCommission case None => 0.0 case Some(x) => x)
  }

  /** A row counts once, with its own figures, day and house, if its owner is among the targets; else not at all. */
  lemma RowCounts(owners: map<string, string>, targets: seq<string>, rows: seq<Row>, row: Row)
    ensures var before, after := Items(owners, targets, rows), Items(owners, targets, rows + [row]);
            var key := row.campaign + "::" + row.house;
            if key in owners && owners[key] != "" && owners[key] in targets then
              && |after| == |before| + 1 && after[..|before|] == before
              && var i := after[|before|];
                 i.user == owners[key] && i.date == row.date && i.house == row.house && ShowsFigures(i.metric, row.sums)
            else after == before
  {
    assert (rows + [row])[..|rows|] == rows;
  }

  /** Summaries add up figure by figure. */
  lemma SummariesAdd(items: seq<Item>, i: Item)
    ensures var a, b, m := SumOf(items), SumOf(items + [i]), i.metric;
            && b.clicks == a.clicks + m.clicks && b.registrations == a.registrations + m.registrations
            && b.ftds == a.ftds + m.ftds && b.deposits == a.deposits + m.deposits
            && b.depositAmount == a.depositAmount + m.depositAmount && b.revShare == a.revShare + m.revShare
            && b.qualifiedCpa == a.qualifiedCpa + m.qualifiedCpa && b.cpaAmount == a.cpaAmount + m.cpaAmount
            && b.totalCommission == a.totalCommission + m.totalCommission
    ensures SumOf([]) == Summary(0, 0, 0, 0, 0.0, 0.0, 0, 0.0, 0.0)
  {
    assert (items + [i])[..|items|] == items;
  }

  /** The contributions that satisfy a condition, summed. */
  function SumIf(items: seq<Item>, counts: Item -> bool): Summary {
    if items == [] then EMPTY_SUMMARY
    else
      var before := SumIf(items[..|items| - 1], counts);
      if counts(items[|items| - 1]) then AddSummary(before, items[|items| - 1].metric) else before
  }

  /** What an account shows for a house, a day or an affiliate is the sum of the contributions there. */
  lemma {:induction false} GroupsAreByField(items: seq<Item>, key: string)
    ensures MetricAt(Account(items, ByHouse), key) == SumIf(items, (i: Item) => i.house == key)
    ensures MetricAt(Account(items, ByDay), key) == SumIf(items, (i: Item) => i.date == key)
    ensures MetricAt(Account(items, ByAffiliate), key) == SumIf(items, (i: Item) => i.user == key)
  {
    AccountHolds(items, ByHouse, key);
    AccountHolds(items, ByDay, key);
    AccountHolds(items, ByAffiliate, key);
    if items != [] {
      var init := items[..|items| - 1];
      GroupsAreByField(init, key);
      AccountHolds(init, ByHouse, key);
      AccountHolds(init, ByDay, key);
      AccountHolds(init, ByAffiliate, key);
    }
  }
}
