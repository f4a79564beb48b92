/**
 A user's balance, which is kept twice: once as global totals, and once per house.  Every earning, fraud
 count and adjustment is a posting; the two sets of accounts are compared through the postings.
 Money and rates are exact reals, instants are milliseconds.
 */
module Balance {
  import opened Basics
  import opened NetworkMembers

  const EPOCH_MS := 1_577_836_800_000

  // ----- The earnings query -----

  /** A stored day of one campaign; `house` is where the provider's data is tagged. */
  datatype DataRow = DataRow(campaign: string, house: string, date: int, cpaQualified: int, revShare: real)

  datatype AggRow = AggRow(campaign: string, house: string, cpaQualified: int, revShare: real)

  /** A window, an excluded audit span, and cutover instants of single campaigns. */
  datatype Filter = Filter(campaigns: set<string>, house: Option<string>, start: int, end: int,
                           audit: Option<(int, int)>, cutover: map<string, int>)

  predicate Selected(f: Filter, r: DataRow) {
    && r.campaign in f.campaigns
    && f.start <= r.date <= f.end
    && (f.house.Some? ==> r.house == f.house.value)
    && (f.audit.Some? ==> !(f.audit.value.0 <= r.date < f.audit.value.1))
    && (r.campaign in f.cutover ==> r.date >= f.cutover[r.campaign])
  }

  function AddToGroup(groups: seq<AggRow>, r: DataRow): seq<AggRow> {
    if groups == [] then [AggRow(r.campaign, r.house, r.cpaQualified, r.revShare)]
    else if groups[0].campaign == r.campaign && groups[0].house == r.house then
      [AggRow(r.campaign, r.house, groups[0].cpaQualified + r.cpaQualified, groups[0].revShare + r.revShare)]
          + groups[1..]
    else [groups[0]] + AddToGroup(groups[1..], r)
  }

  /** `aggregatePerCampaignHouse`: the selected rows, summed by campaign and data house. */
  function Aggregate(data: seq<DataRow>, f: Filter): seq<AggRow> {
    if data == [] then []
    else
      var r := data[|data| - 1];
      var groups := Aggregate(data[..|data| - 1], f);
      if Selected(f, r) then AddToGroup(groups, r) else groups
  }

  /** `dataSourceHouse`: two daily houses read the data of the house whose provider account they share. */
  function DataSourceHouse(house: string): string {
    if house == "esportiva-diario" then "esportivabet"
    else if house == "sportingbet-diario" then "sportingbet"
    else house
  }

  // ----- The user and the settings -----

  datatype Adjustment = Adjustment(house: string, amount: real)

  datatype WithdrawalStatus = PENDING | APPROVED | PROCESSING | COMPLETED | FAILED | REJECTED

  datatype Withdrawal = Withdrawal(status: WithdrawalStatus, originalAmount: real, refunded: Option<real>,
                                   house: string, createdAt: int)

  datatype Self = Self(links: seq<NetLink>, frauds: seq<Fraud>, adjustments: seq<Adjustment>, bonus: real,
                       withdrawals: seq<Withdrawal>)

  datatype Settings = Settings(audit: Option<(int, int)>, cutover: Option<int>, houseCutover: map<string, int>)

  /** `end` is the requested end or the present. */
  datatype Query = Query(house: Option<string>, start: Option<int>, end: int)

  function Max(a: real, b: real): real {
    if a < b then b else a
  }

  function Rate(rate: Option<real>): real {
    if rate.Some? then rate.value else 0.0
  }

  function RateIn(rates: map<string, real>, key: string): real {
    if key in rates then rates[key] else 0.0
  }

  /** The first link that owns an aggregated row. */
  function FindOwner(links: seq<NetLink>, row: AggRow): Option<NetLink> {
    if links == [] then None
    else if links[0].campaign == row.campaign && DataSourceHouse(links[0].house) == row.house then Some(links[0])
    else FindOwner(links[1..], row)
  }

  function FindByRateKey(links: seq<NetLink>, dimension: DimensionOf, key: string): Option<NetLink> {
    if links == [] then None
    else if RateKey(links[0], dimension) == key then Some(links[0])
    else FindByRateKey(links[1..], dimension, key)
  }

  function FindByHouse(links: seq<NetLink>, house: string): Option<NetLink> {
    if links == [] then None
    else if links[0].house == house then Some(links[0])
    else FindByHouse(links[1..], house)
  }

  function CpaRate(link: Option<NetLink>): real {
    if link.Some? then Rate(link.value.cpa) else 0.0
  }

  function RevRate(link: Option<NetLink>): real {
    if link.Some? then Rate(link.value.revshare) else 0.0
  }

  /** An external member earns the head the full rate, others the margin over the direct referral. */
  function EffectiveRate(external: bool, mine: real, l1: real): real {
    if external then mine else Max(0.0, mine - l1)
  }

  function CpaAmount(rate: real, count: int): real {
    rate * (count as real)
  }

  function RevAmount(percent: real, revShare: real): real {
    percent / 100.0 * revShare
  }

  // ----- Accounts and postings -----

  datatype Column = Cpa | Rev | NetworkCpa | NetworkRev | Adjusted | DirectFraud | NetworkFraud | Total

  datatype HouseBalance = HouseBalance(house: string, cpa: real, rev: real, networkCpa: real, networkRev: real,
                                       adjustment: real, fraudDeduction: real, networkFraudDeduction: real, total: real)
  {
    function Get(c: Column): real {
      match c
      case Cpa => cpa
      case Rev => rev
      case NetworkCpa => networkCpa
      case NetworkRev => networkRev
      case Adjusted => adjustment
      case DirectFraud => fraudDeduction
      case NetworkFraud => networkFraudDeduction
      case Total => total
    }

    function Add(c: Column, amount: real): HouseBalance {
      match c
      case Cpa => this.(cpa := cpa + amount)
      case Rev => this.(rev := rev + amount)
      case NetworkCpa => this.(networkCpa := networkCpa + amount)
      case NetworkRev => this.(networkRev := networkRev + amount)
      case Adjusted => this.(adjustment := adjustment + amount)
      case DirectFraud => this.(fraudDeduction := fraudDeduction + amount)
      case NetworkFraud => this.(networkFraudDeduction := networkFraudDeduction + amount)
      case Total => this.(total := total + amount)
    }
  }

  /** An amount for a column of a house and the campaign it comes from, if any; `Open` only makes the house appear. */
  datatype Posting =
    | Open(house: string)
    | Entry(house: string, column: Column, amount: real, campaign: Option<string>)

  /** Postings in the order in which they are made. */
  datatype Journal = Empty | One(posting: Posting) | Both(first: Journal, second: Journal)

  function NewHouse(house: string): HouseBalance {
    HouseBalance(house, 0.0, 0.0, 0.0, 0.0, 0.0, 0.0, 0.0, 0.0)
  }

  function Apply(h: HouseBalance, p: Posting): HouseBalance {
    if p.Entry? then h.Add(p.column, p.amount) else h
  }

  /** `getOrCreateHouse(p.house)` with the amount added: the houses keep the order of their first posting. */
  function Post(perHouse: seq<HouseBalance>, p: Posting): seq<HouseBalance> {
    if perHouse == [] then [Apply(NewHouse(p.house), p)]
    else if perHouse[0].house == p.house then [Apply(perHouse[0], p)] + perHouse[1..]
    else [perHouse[0]] + Post(perHouse[1..], p)
  }

  function PostAll(perHouse: seq<HouseBalance>, j: Journal): seq<HouseBalance>
    decreases j
  {
    match j
    case Empty => perHouse
    case One(p) => Post(perHouse, p)
    case Both(first, second) => PostAll(PostAll(perHouse, first), second)
  }

  function AmountIn(p: Posting, c: Column): real {
    if p.Entry? && p.column == c then p.amount else 0.0
  }

  /** What a journal posts to a column. */
  function SumOf(j: Journal, c: Column): real {
    match j
    case Empty => 0.0
    case One(p) => AmountIn(p, c)
    case Both(first, second) => SumOf(first, c) + SumOf(second, c)
  }

  /** What a journal posts to a column of one house. */
  function SumAt(j: Journal, house: string, c: Column): real {
    match j
    case Empty => 0.0
    case One(p) => if p.house == house then AmountIn(p, c) else 0.0
    case Both(first, second) => SumAt(first, house, c) + SumAt(second, house, c)
  }

  function SumColumn(perHouse: seq<HouseBalance>, c: Column): real {
    if perHouse == [] then 0.0 else perHouse[0].Get(c) + SumColumn(perHouse[1..], c)
  }

  lemma {:induction false} PostAddsToColumn(perHouse: seq<HouseBalance>, p: Posting, c: Column)
    ensures SumColumn(Post(perHouse, p), c) == SumColumn(perHouse, c) + AmountIn(p, c)
  {
    if perHouse != [] && perHouse[0].house != p.house {
      PostAddsToColumn(perHouse[1..], p, c);
      assert Post(perHouse, p)[1..] == Post(perHouse[1..], p);
    } else if perHouse != [] {
      assert Post(perHouse, p)[1..] == perHouse[1..];
    } else {
      assert Post(perHouse, p)[1..] == [];
    }
  }

  /** Column by column the houses together hold what was posted. */
  lemma {:induction false} HousesHoldThePostings(perHouse: seq<HouseBalance>, j: Journal, c: Column)
    ensures SumColumn(PostAll(perHouse, j), c) == SumColumn(perHouse, c) + SumOf(j, c)
    decreases j
  {
    match j
    case Empty =>
    case One(p) => PostAddsToColumn(perHouse, p, c);
    case Both(first, second) =>
      HousesHoldThePostings(perHouse, first, c);
      HousesHoldThePostings(PostAll(perHouse, first), second, c);
  }

  /** What a house shows in a column; nothing if it is not there. */
  function At(perHouse: seq<HouseBalance>, house: string, c: Column): real {
    if perHouse == [] then 0.0 else if perHouse[0].house == house then perHouse[0].Get(c)
    else At(perHouse[1..], house, c)
  }

  function Houses(perHouse: seq<HouseBalance>): seq<string> {
    if perHouse == [] then [] else [perHouse[0].house] + Houses(perHouse[1..])
  }

  predicate Mentioned(j: Journal, house: string) {
    match j
    case Empty => false
    case One(p) => p.house == house
    case Both(first, second) => Mentioned(first, house) || Mentioned(second, house)
  }

  lemma {:induction false} PostAddsAtHouse(perHouse: seq<HouseBalance>, p: Posting, house: string, c: Column)
    ensures At(Post(perHouse, p), house, c) == At(perHouse, house, c) + if p.house == house then AmountIn(p, c) else 0.0
    ensures house in Houses(Post(perHouse, p)) <==> house in Houses(perHouse) || house == p.house
  {
    if perHouse == [] {
      assert Post(perHouse, p)[1..] == [];
    } else if perHouse[0].house == p.house {
      assert Post(perHouse, p)[1..] == perHouse[1..];
    } else {
      PostAddsAtHouse(perHouse[1..], p, house, c);
      assert Post(perHouse, p)[1..] == Post(perHouse[1..], p);
    }
  }

  /** House by house the columns hold what was posted there, and a house is listed once it is mentioned. */
  lemma {:induction false} HouseHoldsItsPostings(perHouse: seq<HouseBalance>, j: Journal, house: string, c: Column)
    ensures At(PostAll(perHouse, j), house, c) == At(perHouse, house, c) + SumAt(j, house, c)
    ensures house in Houses(PostAll(perHouse, j)) <==> house in Houses(perHouse) || Mentioned(j, house)
    decreases j
  {
    match j
    case Empty =>
    case One(p) => PostAddsAtHouse(perHouse, p, house, c);
    case Both(first, second) =>
      HouseHoldsItsPostings(perHouse, first, house, c);
      HouseHoldsItsPostings(PostAll(perHouse, first), second, house, c);
  }

  predicate DistinctHouses(perHouse: seq<HouseBalance>) {
    perHouse == [] || (perHouse[0].house !in Houses(perHouse[1..]) && DistinctHouses(perHouse[1..]))
  }

  lemma {:induction false} PostKeepsDistinct(perHouse: seq<HouseBalance>, p: Posting)
    requires DistinctHouses(perHouse)
    ensures DistinctHouses(Post(perHouse, p))
  {
    if perHouse == [] {
      assert Post(perHouse, p)[1..] == [];
    } else if perHouse[0].house == p.house {
      assert Post(perHouse, p)[1..] == perHouse[1..];
    } else {
      PostKeepsDistinct(perHouse[1..], p);
      PostAddsAtHouse(perHouse[1..], p, perHouse[0].house, Total);
      assert Post(perHouse, p)[1..] == Post(perHouse[1..], p);
    }
  }

  lemma {:induction false} HousesStayDistinct(perHouse: seq<HouseBalance>, j: Journal)
    requires DistinctHouses(perHouse)
    ensures DistinctHouses(PostAll(perHouse, j))
    decreases j
  {
    match j
    case Empty =>
    case One(p) => PostKeepsDistinct(perHouse, p);
    case Both(first, second) =>
      HousesStayDistinct(perHouse, first);
      HousesStayDistinct(PostAll(perHouse, first), second);
  }

  /** Among distinct houses, every listed balance is the one found under its house. */
  lemma {:induction false} ListedIsFound(perHouse: seq<HouseBalance>, h: HouseBalance, c: Column)
    requires DistinctHouses(perHouse) && h in perHouse
    ensures At(perHouse, h.house, c) == h.Get(c) && h.house in Houses(perHouse)
  {
    if h != perHouse[0] {
      ListedIsFound(perHouse[1..], h, c);
    }
  }

  // ----- What every step computes -----

  /** The journal posts to two columns at most. */
  predicate Confined(j: Journal, c1: Column, c2: Column) {
    match j
    case Empty => true
    case One(p) => p.Open? || p.column == c1 || p.column == c2
    case Both(first, second) => Confined(first, c1, c2) && Confined(second, c1, c2)
  }

  /** A step of the computation: its journal went to the houses and, summed, into the accumulators of two columns. */
  ghost predicate Posted(before: seq<HouseBalance>, j: Journal, after: seq<HouseBalance>, c1: Column, v1: real,
                         c2: Column, v2: real) {
    after == PostAll(before, j) && SumOf(j, c1) == v1 && SumOf(j, c2) == v2 && Confined(j, c1, c2)
  }

  lemma {:induction false} NothingElsewhere(j: Journal, c1: Column, c2: Column, c: Column)
    requires Confined(j, c1, c2) && c != c1 && c != c2
    ensures SumOf(j, c) == 0.0
  {
    if j.Both? {
      NothingElsewhere(j.first, c1, c2, c);
      NothingElsewhere(j.second, c1, c2, c);
    }
  }

  lemma PostedAll(before: seq<HouseBalance>, j: Journal, mid: seq<HouseBalance>, c1: Column, v1: real, c2: Column,
                  v2: real, k: Journal, after: seq<HouseBalance>, w1: real, w2: real)
    requires Posted(before, j, mid, c1, v1, c2, v2) && Posted(mid, k, after, c1, w1, c2, w2)
    ensures Posted(before, Both(j, k), after, c1, v1 + w1, c2, v2 + w2)
  {
  }

  // ----- Step 1: own commission -----

  function OwnEntries(links: seq<NetLink>, row: AggRow): Journal {
    match FindOwner(links, row)
    case None => Empty
    case Some(link) =>
      Both(One(Entry(link.house, Cpa, CpaAmount(Rate(link.cpa), row.cpaQualified), Some(row.campaign))),
           One(Entry(link.house, Rev, RevAmount(Rate(link.revshare), row.revShare), Some(row.campaign))))
  }

  function OwnPostings(links: seq<NetLink>, rows: seq<AggRow>, n: nat): Journal
    requires n <= |rows|
  {
    if n == 0 then Empty else Both(OwnPostings(links, rows, n - 1), OwnEntries(links, rows[n - 1]))
  }

  method RowCommission(links: seq<NetLink>, row: AggRow, perHouse0: seq<HouseBalance>)
    returns (houseCpa: real, houseRev: real, perHouse: seq<HouseBalance>)
    ensures Posted(perHouse0, OwnEntries(links, row), perHouse, Cpa, houseCpa, Rev, houseRev)
  {
    var link := FindOwner(links, row);
    if link.None? {
      return 0.0, 0.0, perHouse0;
    }
    houseCpa := CpaAmount(Rate(link.value.cpa), row.cpaQualified);
    houseRev := RevAmount(Rate(link.value.revshare), row.revShare);
    perHouse := Post(perHouse0, Entry(link.value.house, Cpa, houseCpa, Some(row.campaign)));
    perHouse := Post(perHouse, Entry(link.value.house, Rev, houseRev, Some(row.campaign)));
  }

  method OwnCommission(links: seq<NetLink>, rows: seq<AggRow>, perHouse0: seq<HouseBalance>)
    returns (myCpa: real, myRev: real, perHouse: seq<HouseBalance>)
    ensures Posted(perHouse0, OwnPostings(links, rows, |rows|), perHouse, Cpa, myCpa, Rev, myRev)
  {
    myCpa, myRev, perHouse := 0.0, 0.0, perHouse0;
    for i := 0 to |rows|
      invariant Posted(perHouse0, OwnPostings(links, rows, i), perHouse, Cpa, myCpa, Rev, myRev)
    {
      var houseCpa, houseRev, after := RowCommission(links, rows[i], perHouse);
      PostedAll(perHouse0, OwnPostings(links, rows, i), perHouse, Cpa, myCpa, Rev, myRev,
                OwnEntries(links, rows[i]), after, houseCpa, houseRev);
      myCpa, myRev, perHouse := myCpa + houseCpa, myRev + houseRev, after;
    }
  }

  // ----- Step 2: the network -----

  function AggKey(campaign: string, house: string): string {
    campaign + "__" + house
  }

  function AggMap(rows: seq<AggRow>, n: nat): map<string, AggRow>
    requires n <= |rows|
  {
    if n == 0 then map[] else AggMap(rows, n - 1)[AggKey(rows[n - 1].campaign, rows[n - 1].house) := rows[n - 1]]
  }

  method BuildAggMap(rows: seq<AggRow>) returns (m: map<string, AggRow>)
    ensures m == AggMap(rows, |rows|)
  {
    m := map[];
    for i := 0 to |rows|
      invariant m == AggMap(rows, i)
    {
      m := m[AggKey(rows[i].campaign, rows[i].house) := rows[i]];
    }
  }

  /** What the user earns through one link of one member: margin or full rate on that link's figures. */
  function LinkEntries(mine: seq<NetLink>, m: Member, ml: NetLink, agg: map<string, AggRow>,
                       dimension: DimensionOf): Journal {
    var key := RateKey(ml, dimension);
    var my := FindByRateKey(mine, dimension, key);
    var effCpa := EffectiveRate(m.user.isExternal, CpaRate(my), RateIn(m.anchor.cpa, key));
    var effRev := EffectiveRate(m.user.isExternal, RevRate(my), RateIn(m.anchor.rev, key));
    var k := AggKey(ml.campaign, DataSourceHouse(ml.house));
    if (effCpa <= 0.0 && effRev <= 0.0) || k !in agg then Empty
    else
      Both(One(Entry(ml.house, NetworkCpa, CpaAmount(effCpa, agg[k].cpaQualified), Some(ml.campaign))),
           One(Entry(ml.house, NetworkRev, Max(0.0, RevAmount(effRev, agg[k].revShare)), Some(ml.campaign))))
  }

  function MemberPostings(mine: seq<NetLink>, m: Member, agg: map<string, AggRow>, dimension: DimensionOf,
                          n: nat): Journal
    requires n <= |m.user.links|
  {
    if n == 0 then Empty
    else Both(MemberPostings(mine, m, agg, dimension, n - 1), LinkEntries(mine, m, m.user.links[n - 1], agg, dimension))
  }

  function NetworkPostings(mine: seq<NetLink>, members: seq<Member>, agg: map<string, AggRow>, dimension: DimensionOf,
                           n: nat): Journal
    requires n <= |members|
  {
    if n == 0 then Empty
    else
      Both(NetworkPostings(mine, members, agg, dimension, n - 1),
           MemberPostings(mine, members[n - 1], agg, dimension, |members[n - 1].user.links|))
  }

  method LinkEarnings(mine: seq<NetLink>, m: Member, ml: NetLink, agg: map<string, AggRow>, dimension: DimensionOf,
                      perHouse0: seq<HouseBalance>)
    returns (ncpa: real, nrev: real, perHouse: seq<HouseBalance>)
    ensures Posted(perHouse0, LinkEntries(mine, m, ml, agg, dimension), perHouse, NetworkCpa, ncpa, NetworkRev, nrev)
  {
    var key := RateKey(ml, dimension);
    var myLink := FindByRateKey(mine, dimension, key);
    var effCpaRate := EffectiveRate(m.user.isExternal, CpaRate(myLink), RateIn(m.anchor.cpa, key));
    var effRevRate := EffectiveRate(m.user.isExternal, RevRate(myLink), RateIn(m.anchor.rev, key));
    var aggKey := AggKey(ml.campaign, DataSourceHouse(ml.house));
    if (effCpaRate <= 0.0 && effRevRate <= 0.0) || aggKey !in agg {
      return 0.0, 0.0, perHouse0;
    }
    ncpa := CpaAmount(effCpaRate, agg[aggKey].cpaQualified);
    nrev := Max(0.0, RevAmount(effRevRate, agg[aggKey].revShare));
    perHouse := Post(perHouse0, Entry(ml.house, NetworkCpa, ncpa, Some(ml.campaign)));
    perHouse := Post(perHouse, Entry(ml.house, NetworkRev, nrev, Some(ml.campaign)));
  }

  method MemberEarnings(mine: seq<NetLink>, m: Member, agg: map<string, AggRow>, dimension: DimensionOf,
                        perHouse0: seq<HouseBalance>)
    returns (networkCpa: real, networkRev: real, perHouse: seq<HouseBalance>)
    ensures Posted(perHouse0, MemberPostings(mine, m, agg, dimension, |m.user.links|), perHouse, NetworkCpa,
                   networkCpa, NetworkRev, networkRev)
  {
    networkCpa, networkRev, perHouse := 0.0, 0.0, perHouse0;
    for i := 0 to |m.user.links|
      invariant Posted(perHouse0, MemberPostings(mine, m, agg, dimension, i), perHouse, NetworkCpa, networkCpa,
                       NetworkRev, networkRev)
    {
      var ncpa, nrev, after := LinkEarnings(mine, m, m.user.links[i], agg, dimension, perHouse);
      PostedAll(perHouse0, MemberPostings(mine, m, agg, dimension, i), perHouse, NetworkCpa, networkCpa, NetworkRev,
                networkRev, LinkEntries(mine, m, m.user.links[i], agg, dimension), after, ncpa, nrev);
      networkCpa, networkRev, perHouse := networkCpa + ncpa, networkRev + nrev, after;
    }
  }

  lemma NextMember(mine: seq<NetLink>, members: seq<Member>, agg: map<string, AggRow>, dimension: DimensionOf, i: nat,
                   perHouse0: seq<HouseBalance>, perHouse: seq<HouseBalance>, v1: real, v2: real,
                       after: seq<HouseBalance>, w1: real, w2: real)
    requires i < |members|
    requires Posted(perHouse0, NetworkPostings(mine, members, agg, dimension, i), perHouse, NetworkCpa, v1,
                    NetworkRev, v2)
    requires Posted(perHouse, MemberPostings(mine, members[i], agg, dimension, |members[i].user.links|), after,
                    NetworkCpa, w1, NetworkRev, w2)
    ensures Posted(perHouse0, NetworkPostings(mine, members, agg, dimension, i + 1), after, NetworkCpa, v1 + w1,
                   NetworkRev, v2 + w2)
  {
    PostedAll(perHouse0, NetworkPostings(mine, members, agg, dimension, i), perHouse, NetworkCpa, v1, NetworkRev, v2,
              MemberPostings(mine, members[i], agg, dimension, |members[i].user.links|), after, w1, w2);
  }

  method NetworkEarnings(mine: seq<NetLink>, members: seq<Member>, rows: seq<AggRow>, dimension: DimensionOf,
                         perHouse0: seq<HouseBalance>)
    returns (networkCpa: real, networkRev: real, perHouse: seq<HouseBalance>)
    ensures Posted(perHouse0, NetworkPostings(mine, members, AggMap(rows, |rows|), dimension, |members|), perHouse,
                   NetworkCpa, networkCpa, NetworkRev, networkRev)
  {
    var agg := BuildAggMap(rows);
    networkCpa, networkRev, perHouse := 0.0, 0.0, perHouse0;
    for i := 0 to |members|
      invariant Posted(perHouse0, NetworkPostings(mine, members, agg, dimension, i), perHouse, NetworkCpa, networkCpa,
                       NetworkRev, networkRev)
    {
      var ncpa, nrev, after := MemberEarnings(mine, members[i], agg, dimension, perHouse);
      NextMember(mine, members, agg, dimension, i, perHouse0, perHouse, networkCpa, networkRev, after, ncpa, nrev);
      networkCpa, networkRev, perHouse := networkCpa + ncpa, networkRev + nrev, after;
    }
  }

  // ----- Steps 3 and 4: fraud -----

  function DirectFraudEntries(mine: seq<NetLink>, f: Fraud): Journal {
    if f.count <= 0 then Empty
    else One(Entry(f.house, DirectFraud, CpaAmount(CpaRate(FindByHouse(mine, f.house)), f.count), None))
  }

  function DirectFraudPostings(mine: seq<NetLink>, frauds: seq<Fraud>, n: nat): Journal
    requires n <= |frauds|
  {
    if n == 0 then Empty else Both(DirectFraudPostings(mine, frauds, n - 1), DirectFraudEntries(mine, frauds[n - 1]))
  }

  method DirectFraudDeduction(mine: seq<NetLink>, frauds: seq<Fraud>, perHouse0: seq<HouseBalance>)
    returns (deducted: real, perHouse: seq<HouseBalance>)
    ensures Posted(perHouse0, DirectFraudPostings(mine, frauds, |frauds|), perHouse, DirectFraud, deducted, Total, 0.0)
  {
    deducted, perHouse := 0.0, perHouse0;
    for i := 0 to |frauds|
      invariant Posted(perHouse0, DirectFraudPostings(mine, frauds, i), perHouse, DirectFraud, deducted, Total, 0.0)
    {
      var fraud := frauds[i];
      if fraud.count <= 0 {
        continue;
      }
      var deduction := CpaAmount(CpaRate(FindByHouse(mine, fraud.house)), fraud.count);
      var entry := Entry(fraud.house, DirectFraud, deduction, None);
      deducted, perHouse := deducted + deduction, Post(perHouse, entry);
    }
  }

  function MemberFraudRate(mine: seq<NetLink>, m: Member, house: string, dimension: DimensionOf): real {
    var memberLink := FindByHouse(m.user.links, house);
    var myLink := if memberLink.Some?
        then FindByRateKey(mine, dimension, RateKey(memberLink.value, dimension)) else FindByHouse(mine, house);
    var l1 := RateIn(m.anchor.cpa, if memberLink.Some? then RateKey(memberLink.value, dimension) else house);
    EffectiveRate(m.user.isExternal, CpaRate(myLink), l1)
  }

  function MemberFraudEntries(mine: seq<NetLink>, m: Member, f: Fraud, dimension: DimensionOf): Journal {
    var eff := MemberFraudRate(mine, m, f.house, dimension);
    if f.count <= 0 || eff <= 0.0 then Empty else One(Entry(f.house, NetworkFraud, CpaAmount(eff, f.count), None))
  }

  function MemberFraudPostings(mine: seq<NetLink>, m: Member, dimension: DimensionOf, n: nat): Journal
    requires n <= |m.user.frauds|
  {
    if n == 0 then Empty
    else Both(MemberFraudPostings(mine, m, dimension, n - 1),
              MemberFraudEntries(mine, m, m.user.frauds[n - 1], dimension))
  }

  function NetworkFraudPostings(mine: seq<NetLink>, members: seq<Member>, dimension: DimensionOf, n: nat): Journal
    requires n <= |members|
  {
    if n == 0 then Empty
    else
      Both(NetworkFraudPostings(mine, members, dimension, n - 1),
           MemberFraudPostings(mine, members[n - 1], dimension, |members[n - 1].user.frauds|))
  }

  /** One fraud count of one member, clawed back at the rate it was paid. */
  method MemberFraudCount(mine: seq<NetLink>, m: Member, fraud: Fraud, dimension: DimensionOf,
                          perHouse0: seq<HouseBalance>)
    returns (deduction: real, perHouse: seq<HouseBalance>)
    ensures Posted(perHouse0, MemberFraudEntries(mine, m, fraud, dimension), perHouse, NetworkFraud, deduction, Total,
                   0.0)
  {
    var effCpaRate := MemberFraudRate(mine, m, fraud.house, dimension);
    if fraud.count <= 0 || effCpaRate <= 0.0 {
      return 0.0, perHouse0;
    }
    deduction := CpaAmount(effCpaRate, fraud.count);
    var entry := Entry(fraud.house, NetworkFraud, deduction, None);
    perHouse := Post(perHouse0, entry);
  }

  lemma NextMemberFraud(mine: seq<NetLink>, m: Member, dimension: DimensionOf, i: nat, perHouse0: seq<HouseBalance>,
                        perHouse: seq<HouseBalance>, v: real, after: seq<HouseBalance>, w: real)
    requires i < |m.user.frauds|
    requires Posted(perHouse0, MemberFraudPostings(mine, m, dimension, i), perHouse, NetworkFraud, v, Total, 0.0)
    requires Posted(perHouse, MemberFraudEntries(mine, m, m.user.frauds[i], dimension), after, NetworkFraud, w, Total,
                    0.0)
    ensures Posted(perHouse0, MemberFraudPostings(mine, m, dimension, i + 1), after, NetworkFraud, v + w, Total, 0.0)
  {
    PostedAll(perHouse0, MemberFraudPostings(mine, m, dimension, i), perHouse, NetworkFraud, v, Total, 0.0,
              MemberFraudEntries(mine, m, m.user.frauds[i], dimension), after, w, 0.0);
  }

  method MemberFraudDeduction(mine: seq<NetLink>, m: Member, dimension: DimensionOf, perHouse0: seq<HouseBalance>)
    returns (deducted: real, perHouse: seq<HouseBalance>)
    ensures Posted(perHouse0, MemberFraudPostings(mine, m, dimension, |m.user.frauds|), perHouse, NetworkFraud,
                   deducted, Total, 0.0)
  {
    deducted, perHouse := 0.0, perHouse0;
    for i := 0 to |m.user.frauds|
      invariant Posted(perHouse0, MemberFraudPostings(mine, m, dimension, i), perHouse, NetworkFraud, deducted, Total,
                       0.0)
    {
      var deduction, after := MemberFraudCount(mine, m, m.user.frauds[i], dimension, perHouse);
      NextMemberFraud(mine, m, dimension, i, perHouse0, perHouse, deducted, after, deduction);
      deducted, perHouse := deducted + deduction, after;
    }
  }

  method NetworkFraudDeduction(mine: seq<NetLink>, members: seq<Member>, dimension: DimensionOf,
                               perHouse0: seq<HouseBalance>)
    returns (deducted: real, perHouse: seq<HouseBalance>)
    ensures Posted(perHouse0, NetworkFraudPostings(mine, members, dimension, |members|), perHouse, NetworkFraud,
                   deducted, Total, 0.0)
  {
    deducted, perHouse := 0.0, perHouse0;
    for i := 0 to |members|
      invariant Posted(perHouse0, NetworkFraudPostings(mine, members, dimension, i), perHouse, NetworkFraud, deducted,
                       Total, 0.0)
    {
      var deduction, after := MemberFraudDeduction(mine, members[i], dimension, perHouse);
      PostedAll(perHouse0, NetworkFraudPostings(mine, members, dimension, i), perHouse, NetworkFraud, deducted, Total,
                0.0, MemberFraudPostings(mine, members[i], dimension, |members[i].user.frauds|), after, deduction, 0.0);
      deducted, perHouse := deducted + deduction, after;
    }
  }

  // ----- Houses that appear without earnings, and manual adjustments -----

  predicate Scoped(q: Query, house: string) {
    q.house.None? || q.house.value == house
  }

  function OpenPostings(q: Query, links: seq<NetLink>, n: nat): Journal
    requires n <= |links|
  {
    if n == 0 then Empty
    else
      Both(OpenPostings(q, links, n - 1),
           if Scoped(q, links[n - 1].house) && IsPinbet(links[n - 1].house)
           then One(Open(links[n - 1].house)) else Empty)
  }

  method OpenPinbetHouses(q: Query, links: seq<NetLink>, perHouse0: seq<HouseBalance>)
    returns (perHouse: seq<HouseBalance>)
    ensures Posted(perHouse0, OpenPostings(q, links, |links|), perHouse, Adjusted, 0.0, Total, 0.0)
  {
    perHouse := perHouse0;
    for i := 0 to |links|
      invariant Posted(perHouse0, OpenPostings(q, links, i), perHouse, Adjusted, 0.0, Total, 0.0)
    {
      if Scoped(q, links[i].house) && IsPinbet(links[i].house) {
        perHouse := Post(perHouse, Open(links[i].house));
      }
    }
  }

  function AdjustmentPostings(q: Query, adjustments: seq<Adjustment>, n: nat): Journal
    requires n <= |adjustments|
  {
    if n == 0 then Empty
    else
      Both(AdjustmentPostings(q, adjustments, n - 1),
           if Scoped(q, adjustments[n - 1].house)
           then One(Entry(adjustments[n - 1].house, Adjusted, adjustments[n - 1].amount, None)) else Empty)
  }

  method ApplyAdjustments(q: Query, adjustments: seq<Adjustment>, perHouse0: seq<HouseBalance>)
    returns (balanceAdjustment: real, perHouse: seq<HouseBalance>)
    ensures Posted(perHouse0, AdjustmentPostings(q, adjustments, |adjustments|), perHouse, Adjusted,
                   balanceAdjustment, Total, 0.0)
  {
    balanceAdjustment, perHouse := 0.0, perHouse0;
    for i := 0 to |adjustments|
      invariant Posted(perHouse0, AdjustmentPostings(q, adjustments, i), perHouse, Adjusted, balanceAdjustment, Total,
                       0.0)
    {
      var adj := adjustments[i];
      if !Scoped(q, adj.house) {
        continue;
      }
      var entry := Entry(adj.house, Adjusted, adj.amount, None);
      balanceAdjustment, perHouse := balanceAdjustment + adj.amount, Post(perHouse, entry);
    }
  }

  // ----- Steps 1 to 4 together -----

  /** The global accumulators. */
  datatype Accounts = Accounts(myCpa: real, myRev: real, networkCpa: real, networkRev: real, balanceAdjustment: real,
                               myFraudDeduction: real, networkFraudDeduction: real)
  {
    function Get(c: Column): real {
      match c
      case Cpa => myCpa
      case Rev => myRev
      case NetworkCpa => networkCpa
      case NetworkRev => networkRev
      case Adjusted => balanceAdjustment
      case DirectFraud => myFraudDeduction
      case NetworkFraud => networkFraudDeduction
      case Total => 0.0
    }

    function Add(c: Column, amount: real): Accounts {
      match c
      case Cpa => this.(myCpa := myCpa + amount)
      case Rev => this.(myRev := myRev + amount)
      case NetworkCpa => this.(networkCpa := networkCpa + amount)
      case NetworkRev => this.(networkRev := networkRev + amount)
      case Adjusted => this.(balanceAdjustment := balanceAdjustment + amount)
      case DirectFraud => this.(myFraudDeduction := myFraudDeduction + amount)
      case NetworkFraud => this.(networkFraudDeduction := networkFraudDeduction + amount)
      case Total => this
    }
  }

  /** Both sets of accounts are up to date with the journal. */
  ghost predicate Kept(a: Accounts, j: Journal, perHouse: seq<HouseBalance>) {
    perHouse == PostAll([], j) && forall c :: SumOf(j, c) == a.Get(c)
  }

  lemma KeptStep(a: Accounts, j: Journal, perHouse: seq<HouseBalance>, k: Journal, after: seq<HouseBalance>,
                 c1: Column, v1: real, c2: Column, v2: real)
    requires Kept(a, j, perHouse) && Posted(perHouse, k, after, c1, v1, c2, v2)
    requires c1 != c2 && (c2 == Total ==> v2 == 0.0) && c1 != Total
    ensures Kept(a.Add(c1, v1).Add(c2, v2), Both(j, k), after)
  {
    forall c
      ensures SumOf(Both(j, k), c) == a.Add(c1, v1).Add(c2, v2).Get(c)
    {
      SumsOfStep(k, c1, c2, c);
      AddsUp(a, c1, v1, c2, v2, c);
    }
  }

  lemma SumsOfStep(j: Journal, c1: Column, c2: Column, c: Column)
    requires Confined(j, c1, c2)
    ensures SumOf(j, c) == if c == c1 then SumOf(j, c1) else if c == c2 then SumOf(j, c2) else 0.0
  {
    if c != c1 && c != c2 {
      NothingElsewhere(j, c1, c2, c);
    }
  }

  lemma AddsUp(a: Accounts, c1: Column, v1: real, c2: Column, v2: real, c: Column)
    requires c1 != c2 && (c2 == Total ==> v2 == 0.0) && c1 != Total
    ensures a.Add(c1, v1).Add(c2, v2).Get(c) == a.Get(c) + if c == c1 then v1 else if c == c2 then v2 else 0.0
  {
  }

  function StartOf(st: Settings, q: Query): int {
    var start := if q.start.Some? then q.start.value else EPOCH_MS;
    if st.cutover.Some? && st.cutover.value > start then st.cutover.value else start
  }

  /** Cutovers by campaign: those of the link's house that lie after the window's start; a later link overwrites. */
  function CampaignCutovers(links: seq<NetLink>, st: Settings, start: int): map<string, int> {
    if links == [] then map[]
    else
      var l := links[|links| - 1];
      var earlier := CampaignCutovers(links[..|links| - 1], st, start);
      if l.house in st.houseCutover && st.houseCutover[l.house] > start
      then earlier[l.campaign := st.houseCutover[l.house]] else earlier
  }

  function CampaignsOf(q: Query, links: seq<NetLink>): set<string> {
    set l | l in links && Scoped(q, l.house) :: l.campaign
  }

  function DataFilter(q: Query, st: Settings, campaignLinks: seq<NetLink>, cutoverLinks: seq<NetLink>): Filter {
    Filter(CampaignsOf(q, campaignLinks), if q.house.Some? then Some(DataSourceHouse(q.house.value)) else None,
           StartOf(st, q), q.end, st.audit, CampaignCutovers(cutoverLinks, st, StartOf(st, q)))
  }

  function AllLinks(members: seq<Member>): seq<NetLink> {
    if members == [] then [] else members[0].user.links + AllLinks(members[1..])
  }

  function OwnRows(mine: seq<NetLink>, data: seq<DataRow>, st: Settings, q: Query): seq<AggRow> {
    Aggregate(data, DataFilter(q, st, mine, mine))
  }

  function NetworkRows(mine: seq<NetLink>, members: seq<Member>, data: seq<DataRow>, st: Settings,
                       q: Query): seq<AggRow> {
    Aggregate(data, DataFilter(q, st, AllLinks(members), mine + AllLinks(members)))
  }

  function EarningPostings(mine: seq<NetLink>, members: seq<Member>, data: seq<DataRow>, st: Settings, q: Query,
                           dimension: DimensionOf): Journal {
    var own := OwnRows(mine, data, st, q);
    var network := NetworkRows(mine, members, data, st, q);
    Both(Both(Both(OpenPostings(q, mine, |mine|), OwnPostings(mine, own, |own|)),
              OpenPostings(q, AllLinks(members), |AllLinks(members)|)),
         NetworkPostings(mine, members, AggMap(network, |network|), dimension, |members|))
  }

  function WithDeductions(earnings: Journal, self: Self, members: seq<Member>, q: Query,
                          dimension: DimensionOf): Journal {
    Both(Both(Both(earnings, DirectFraudPostings(self.links, self.frauds, |self.frauds|)),
              NetworkFraudPostings(self.links, members, dimension, |members|)),
         AdjustmentPostings(q, self.adjustments, |self.adjustments|))
  }

  function Postings(self: Self, members: seq<Member>, data: seq<DataRow>, st: Settings, q: Query,
                    dimension: DimensionOf): Journal {
    WithDeductions(EarningPostings(self.links, members, data, st, q, dimension), self, members, q, dimension)
  }

  const NO_EARNINGS := Accounts(0.0, 0.0, 0.0, 0.0, 0.0, 0.0, 0.0)

  lemma OnlyOpened(j: Journal, houses: seq<HouseBalance>)
    requires Posted([], j, houses, Adjusted, 0.0, Total, 0.0)
    ensures Kept(NO_EARNINGS, j, houses)
  {
    forall c
      ensures SumOf(j, c) == 0.0
    {
      SumsOfStep(j, Adjusted, Total, c);
    }
  }

  method Earn(mine: seq<NetLink>, members: seq<Member>, data: seq<DataRow>, st: Settings, q: Query,
              dimension: DimensionOf)
    returns (a: Accounts, perHouse: seq<HouseBalance>)
    ensures Kept(a, EarningPostings(mine, members, data, st, q, dimension), perHouse)
    ensures a == Accounts(a.myCpa, a.myRev, a.networkCpa, a.networkRev, 0.0, 0.0, 0.0)
  {
    ghost var ps := OpenPostings(q, mine, |mine|);
    var houses := OpenPinbetHouses(q, mine, []);
    OnlyOpened(ps, houses);

    var own := OwnRows(mine, data, st, q);
    var myCpa, myRev;
    myCpa, myRev, perHouse := OwnCommission(mine, own, houses);
    KeptStep(NO_EARNINGS, ps, houses, OwnPostings(mine, own, |own|), perHouse, Cpa, myCpa, Rev, myRev);
    a, ps := NO_EARNINGS.(myCpa := myCpa, myRev := myRev), Both(ps, OwnPostings(mine, own, |own|));

    var links := AllLinks(members);
    houses := OpenPinbetHouses(q, links, perHouse);
    KeptStep(a, ps, perHouse, OpenPostings(q, links, |links|), houses, Adjusted, 0.0, Total, 0.0);
    ps := Both(ps, OpenPostings(q, links, |links|));

    var network := NetworkRows(mine, members, data, st, q);
    var networkCpa, networkRev;
    networkCpa, networkRev, perHouse := NetworkEarnings(mine, members, network, dimension, houses);
    KeptStep(a, ps, houses, NetworkPostings(mine, members, AggMap(network, |network|), dimension, |members|), perHouse,
             NetworkCpa, networkCpa, NetworkRev, networkRev);
    a := a.(networkCpa := networkCpa, networkRev := networkRev);
  }

  method Deduct(self: Self, members: seq<Member>, q: Query, dimension: DimensionOf, a0: Accounts,
                perHouse0: seq<HouseBalance>, ghost ps0: Journal)
    returns (a: Accounts, perHouse: seq<HouseBalance>)
    requires Kept(a0, ps0, perHouse0) && a0 == Accounts(a0.myCpa, a0.myRev, a0.networkCpa, a0.networkRev, 0.0, 0.0, 0.0)
    ensures Kept(a, WithDeductions(ps0, self, members, q, dimension), perHouse)
  {
    ghost var direct := DirectFraudPostings(self.links, self.frauds, |self.frauds|);
    var myFraud, afterDirect := DirectFraudDeduction(self.links, self.frauds, perHouse0);
    KeptStep(a0, ps0, perHouse0, direct, afterDirect, DirectFraud, myFraud, Total, 0.0);
    a := a0.(myFraudDeduction := myFraud);

    ghost var network := NetworkFraudPostings(self.links, members, dimension, |members|);
    var networkFraud, afterNetwork := NetworkFraudDeduction(self.links, members, dimension, afterDirect);
    KeptStep(a, Both(ps0, direct), afterDirect, network, afterNetwork, NetworkFraud, networkFraud, Total, 0.0);
    a := a.(networkFraudDeduction := networkFraud);

    ghost var adjusted := AdjustmentPostings(q, self.adjustments, |self.adjustments|);
    var adjustment;
    adjustment, perHouse := ApplyAdjustments(q, self.adjustments, afterNetwork);
    KeptStep(a, Both(Both(ps0, direct), network), afterNetwork, adjusted, perHouse, Adjusted, adjustment, Total, 0.0);
    a := a.(balanceAdjustment := adjustment);
  }

  // ----- Step 6: totals and withdrawals -----

  function Net(h: HouseBalance): real {
    h.cpa + h.rev + h.networkCpa + h.networkRev + h.adjustment - h.fraudDeduction - h.networkFraudDeduction
  }

  function WithTotals(perHouse: seq<HouseBalance>): seq<HouseBalance> {
    if perHouse == [] then [] else [perHouse[0].(total := Net(perHouse[0]))] + WithTotals(perHouse[1..])
  }

  lemma {:induction false} WithTotalsIs(perHouse: seq<HouseBalance>, r: seq<HouseBalance>)
    requires |r| == |perHouse| && forall i | 0 <= i < |r| :: r[i] == perHouse[i].(total := Net(perHouse[i]))
    ensures r == WithTotals(perHouse)
  {
    if r != [] {
      WithTotalsIs(perHouse[1..], r[1..]);
    }
  }

  method SetTotals(perHouse0: seq<HouseBalance>) returns (perHouse: seq<HouseBalance>)
    ensures perHouse == WithTotals(perHouse0)
  {
    perHouse := perHouse0;
    for i := 0 to |perHouse0|
      invariant |perHouse| == |perHouse0|
      invariant forall k | 0 <= k < i :: perHouse[k] == perHouse0[k].(total := Net(perHouse0[k]))
      invariant forall k | i <= k < |perHouse| :: perHouse[k] == perHouse0[k]
    {
      var h := perHouse[i];
      perHouse := perHouse[i := h.(total := Net(h))];
    }
    WithTotalsIs(perHouse0, perHouse);
  }

  /** The house's own cutover where it lies after the global one. */
  function HouseCutover(st: Settings, house: string): Option<int> {
    if house in st.houseCutover && (st.cutover.None? || st.houseCutover[house] > st.cutover.value)
    then Some(st.houseCutover[house])
    else st.cutover
  }

  predicate Fetched(st: Settings, q: Query, w: Withdrawal) {
    && !w.status.FAILED? && !w.status.REJECTED?
    && (st.cutover.Some? ==> w.createdAt >= st.cutover.value)
    && (if q.house.Some? then w.house == q.house.value else w.house != "all")
  }

  predicate Counted(st: Settings, q: Query, w: Withdrawal) {
    Fetched(st, q, w) && !(HouseCutover(st, w.house).Some? && w.createdAt < HouseCutover(st, w.house).value)
  }

  function AmountOut(w: Withdrawal): real {
    Max(0.0, w.originalAmount - Rate(w.refunded))
  }

  function WithdrawalPostings(st: Settings, q: Query, ws: seq<Withdrawal>, n: nat): Journal
    requires n <= |ws|
  {
    if n == 0 then Empty
    else
      Both(WithdrawalPostings(st, q, ws, n - 1),
           if Counted(st, q, ws[n - 1]) then One(Entry(ws[n - 1].house, Total, -AmountOut(ws[n - 1]), None)) else Empty)
  }

  /** The counted withdrawals that are pending, or that are not. */
  function WithdrawnSum(st: Settings, q: Query, ws: seq<Withdrawal>, pending: bool, n: nat): real
    requires n <= |ws|
  {
    if n == 0 then 0.0
    else
      WithdrawnSum(st, q, ws, pending, n - 1)
      + if Counted(st, q, ws[n - 1]) && ws[n - 1].status.PENDING? == pending then AmountOut(ws[n - 1]) else 0.0
  }

  /** One withdrawal of the house it was made against, into its bucket. */
  method DeductWithdrawal(w: Withdrawal, approved0: real, pending0: real, perHouse0: seq<HouseBalance>)
    returns (approved: real, pending: real, perHouse: seq<HouseBalance>)
    ensures approved == approved0 + if w.status.PENDING? then 0.0 else AmountOut(w)
    ensures pending == pending0 + if w.status.PENDING? then AmountOut(w) else 0.0
    ensures perHouse == Post(perHouse0, Entry(w.house, Total, -AmountOut(w), None))
  {
    approved, pending := approved0, pending0;
    var amt := AmountOut(w);
    if w.status.PENDING? {
      pending := pending + amt;
    } else {
      approved := approved + amt;
    }
    perHouse := Post(perHouse0, Entry(w.house, Total, -amt, None));
  }

  ghost predicate WithdrawnUpTo(st: Settings, q: Query, ws: seq<Withdrawal>, n: nat, approved: real, pending: real,
                                perHouse0: seq<HouseBalance>, perHouse: seq<HouseBalance>) {
    && n <= |ws|
    && approved == WithdrawnSum(st, q, ws, false, n) && pending == WithdrawnSum(st, q, ws, true, n)
    && Posted(perHouse0, WithdrawalPostings(st, q, ws, n), perHouse, Total, -(approved + pending), Adjusted, 0.0)
  }

  lemma WithdrawalDone(st: Settings, q: Query, ws: seq<Withdrawal>, i: nat, approved: real, pending: real,
                       perHouse0: seq<HouseBalance>, perHouse: seq<HouseBalance>)
    requires i < |ws| && WithdrawnUpTo(st, q, ws, i, approved, pending, perHouse0, perHouse)
    ensures var w := ws[i];
            if Counted(st, q, w) then
              WithdrawnUpTo(st, q, ws, i + 1,
                            approved + if w.status.PENDING? then 0.0 else AmountOut(w),
                            pending + if w.status.PENDING? then AmountOut(w) else 0.0,
                            perHouse0, Post(perHouse, Entry(w.house, Total, -AmountOut(w), None)))
            else WithdrawnUpTo(st, q, ws, i + 1, approved, pending, perHouse0, perHouse)
  {
  }

  method DeductWithdrawals(st: Settings, q: Query, ws: seq<Withdrawal>, perHouse0: seq<HouseBalance>)
    returns (approved: real, pending: real, perHouse: seq<HouseBalance>)
    ensures WithdrawnUpTo(st, q, ws, |ws|, approved, pending, perHouse0, perHouse)
  {
    approved, pending, perHouse := 0.0, 0.0, perHouse0;
    for i := 0 to |ws|
      invariant WithdrawnUpTo(st, q, ws, i, approved, pending, perHouse0, perHouse)
    {
      WithdrawalDone(st, q, ws, i, approved, pending, perHouse0, perHouse);
      if !Counted(st, q, ws[i]) {
        continue;
      }
      approved, pending, perHouse := DeductWithdrawal(ws[i], approved, pending, perHouse);
    }
  }

  lemma {:induction false} TotalsAddUp(perHouse: seq<HouseBalance>)
    ensures SumColumn(WithTotals(perHouse), Total) ==
            SumColumn(perHouse, Cpa) + SumColumn(perHouse, Rev) + SumColumn(perHouse, NetworkCpa)
                + SumColumn(perHouse, NetworkRev)
            + SumColumn(perHouse, Adjusted) - SumColumn(perHouse, DirectFraud) - SumColumn(perHouse, NetworkFraud)
  {
    if perHouse != [] {
      TotalsAddUp(perHouse[1..]);
      assert WithTotals(perHouse)[1..] == WithTotals(perHouse[1..]);
    }
  }

  lemma {:induction false} TotalsKeepHouses(perHouse: seq<HouseBalance>, house: string, c: Column)
    ensures Houses(WithTotals(perHouse)) == Houses(perHouse)
    ensures c != Total ==> At(WithTotals(perHouse), house, c) == At(perHouse, house, c)
    ensures At(WithTotals(perHouse), house, Total) ==
            At(perHouse, house, Cpa) + At(perHouse, house, Rev) + At(perHouse, house, NetworkCpa)
                + At(perHouse, house, NetworkRev)
            + At(perHouse, house, Adjusted) - At(perHouse, house, DirectFraud) - At(perHouse, house, NetworkFraud)
  {
    if perHouse != [] {
      TotalsKeepHouses(perHouse[1..], house, c);
      assert WithTotals(perHouse)[1..] == WithTotals(perHouse[1..]);
    }
  }

  lemma {:induction false} TotalsKeepDistinct(perHouse: seq<HouseBalance>)
    requires DistinctHouses(perHouse)
    ensures DistinctHouses(WithTotals(perHouse))
  {
    if perHouse != [] {
      TotalsKeepDistinct(perHouse[1..]);
      TotalsKeepHouses(perHouse[1..], "", Total);
      assert WithTotals(perHouse)[1..] == WithTotals(perHouse[1..]);
    }
  }

  // ----- The report -----

  datatype Report = Report(balance: real, periodBalance: real, baseGross: real, grossBalance: real,
                           withdrawalsApproved: real, withdrawalsPending: real, accounts: Accounts,
                           bonusBalance: real, totalFraudDeduction: real, perHouse: seq<HouseBalance>)

  /** What a house is credited with by a journal. */
  function NetAt(ps: Journal, house: string): real {
    SumAt(ps, house, Cpa) + SumAt(ps, house, Rev) + SumAt(ps, house, NetworkCpa) + SumAt(ps, house, NetworkRev)
    + SumAt(ps, house, Adjusted) - SumAt(ps, house, DirectFraud) - SumAt(ps, house, NetworkFraud)
  }

  /** The house accounts hold, house by house, exactly the postings and the withdrawals. */
  ghost predicate HousesMatch(perHouse: seq<HouseBalance>, ps: Journal, ws: Journal) {
    && DistinctHouses(perHouse)
    && (forall house :: house in Houses(perHouse) <==> Mentioned(ps, house) || Mentioned(ws, house))
    && (forall h | h in perHouse :: h.total == NetAt(ps, h.house) + SumAt(ws, h.house, Total))
    && (forall h, c | h in perHouse && c != Total :: h.Get(c) == SumAt(ps, h.house, c))
  }

  lemma {:induction false} OnlyTotals(st: Settings, q: Query, ws: seq<Withdrawal>, n: nat, house: string, c: Column)
    requires n <= |ws| && c != Total
    ensures SumAt(WithdrawalPostings(st, q, ws, n), house, c) == 0.0
  {
    if n > 0 {
      OnlyTotals(st, q, ws, n - 1, house, c);
    }
  }

  lemma SettledHouses(a: Accounts, ps: Journal, perHouse: seq<HouseBalance>, st: Settings, q: Query,
                      ws: seq<Withdrawal>, after: seq<HouseBalance>)
    requires Kept(a, ps, perHouse)
    requires after == PostAll(WithTotals(perHouse), WithdrawalPostings(st, q, ws, |ws|))
    ensures HousesMatch(after, ps, WithdrawalPostings(st, q, ws, |ws|))
  {
    var out := WithdrawalPostings(st, q, ws, |ws|);
    HousesStayDistinct([], ps);
    TotalsKeepDistinct(perHouse);
    HousesStayDistinct(WithTotals(perHouse), out);
    forall house
      ensures house in Houses(after) <==> Mentioned(ps, house) || Mentioned(out, house)
      ensures At(after, house, Total) == NetAt(ps, house) + SumAt(out, house, Total)
    {
      SettledAt(ps, perHouse, out, house);
    }
    forall house, c | c != Total
      ensures At(after, house, c) == SumAt(ps, house, c)
    {
      SettledColumn(ps, perHouse, st, q, ws, house, c);
    }
    forall h, c | h in after
      ensures At(after, h.house, c) == h.Get(c)
    {
      ListedIsFound(after, h, c);
    }
  }

  lemma SettledColumn(ps: Journal, perHouse: seq<HouseBalance>, st: Settings, q: Query, ws: seq<Withdrawal>,
                      house: string, c: Column)
    requires perHouse == PostAll([], ps) && c != Total
    ensures At(PostAll(WithTotals(perHouse), WithdrawalPostings(st, q, ws, |ws|)), house, c) == SumAt(ps, house, c)
  {
    HouseHoldsItsPostings([], ps, house, c);
    TotalsKeepHouses(perHouse, house, c);
    HouseHoldsItsPostings(WithTotals(perHouse), WithdrawalPostings(st, q, ws, |ws|), house, c);
    OnlyTotals(st, q, ws, |ws|, house, c);
  }

  lemma SettledAt(ps: Journal, perHouse: seq<HouseBalance>, out: Journal, house: string)
    requires perHouse == PostAll([], ps)
    ensures var after := PostAll(WithTotals(perHouse), out);
            && (house in Houses(after) <==> Mentioned(ps, house) || Mentioned(out, house))
            && At(after, house, Total) == NetAt(ps, house) + SumAt(out, house, Total)
  {
    HouseHoldsItsPostings([], ps, house, Cpa);
    HouseHoldsItsPostings([], ps, house, Rev);
    HouseHoldsItsPostings([], ps, house, NetworkCpa);
    HouseHoldsItsPostings([], ps, house, NetworkRev);
    HouseHoldsItsPostings([], ps, house, Adjusted);
    HouseHoldsItsPostings([], ps, house, DirectFraud);
    HouseHoldsItsPostings([], ps, house, NetworkFraud);
    TotalsKeepHouses(perHouse, house, Total);
    HouseHoldsItsPostings(WithTotals(perHouse), out, house, Total);
  }

  lemma HousesHoldTheColumn(a: Accounts, ps: Journal, perHouse: seq<HouseBalance>, c: Column)
    requires Kept(a, ps, perHouse)
    ensures SumColumn(perHouse, c) == a.Get(c)
  {
    HousesHoldThePostings([], ps, c);
  }

  function NetOf(a: Accounts): real {
    a.myCpa + a.myRev + a.networkCpa + a.networkRev + a.balanceAdjustment - a.myFraudDeduction - a.networkFraudDeduction
  }

  lemma TotalledNet(a: Accounts, ps: Journal, perHouse: seq<HouseBalance>)
    requires Kept(a, ps, perHouse)
    ensures SumColumn(WithTotals(perHouse), Total) == NetOf(a)
  {
    TotalsAddUp(perHouse);
    HousesHoldTheColumn(a, ps, perHouse, Cpa);
    HousesHoldTheColumn(a, ps, perHouse, Rev);
    HousesHoldTheColumn(a, ps, perHouse, NetworkCpa);
    HousesHoldTheColumn(a, ps, perHouse, NetworkRev);
    HousesHoldTheColumn(a, ps, perHouse, Adjusted);
    HousesHoldTheColumn(a, ps, perHouse, DirectFraud);
    HousesHoldTheColumn(a, ps, perHouse, NetworkFraud);
  }

  /** All houses together hold the global net, less what was withdrawn. */
  lemma HousesHoldTheNet(a: Accounts, ps: Journal, perHouse: seq<HouseBalance>, out: Journal, withdrawn: real)
    requires Kept(a, ps, perHouse) && SumOf(out, Total) == -withdrawn
    ensures SumColumn(PostAll(WithTotals(perHouse), out), Total) == NetOf(a) - withdrawn
  {
    TotalledNet(a, ps, perHouse);
    HousesHoldThePostings(WithTotals(perHouse), out, Total);
  }

  /**
   The house totals and the bonus make up the base, less fraud and withdrawals: the balance, unless the base is
   negative.
   */
  ghost predicate Reconciled(r: Report) {
    var fromHouses := SumColumn(r.perHouse, Total) + r.bonusBalance;
    && fromHouses == r.baseGross - r.totalFraudDeduction - (r.withdrawalsApproved + r.withdrawalsPending)
    && (r.balance == fromHouses <==> r.baseGross >= 0.0)
    && r.balance >= fromHouses
  }

  /** What a report says about the postings `ps` of steps 1 to 5 and the user's withdrawals. */
  ghost predicate Accounted(r: Report, self: Self, st: Settings, q: Query, ps: Journal) {
    var a, ws := r.accounts, self.withdrawals;
    && (forall c :: SumOf(ps, c) == a.Get(c))
    && HousesMatch(r.perHouse, ps, WithdrawalPostings(st, q, ws, |ws|))
    && r.withdrawalsApproved == WithdrawnSum(st, q, ws, false, |ws|)
    && r.withdrawalsPending == WithdrawnSum(st, q, ws, true, |ws|)
    && r.bonusBalance == (if q.house.Some? then 0.0 else self.bonus)
    && r.totalFraudDeduction == a.myFraudDeduction + a.networkFraudDeduction
    && r.baseGross == a.myCpa + a.myRev + a.networkCpa + a.networkRev + r.bonusBalance + a.balanceAdjustment
    && r.grossBalance == Max(0.0, r.baseGross) - r.totalFraudDeduction
    && r.balance == r.grossBalance - (r.withdrawalsApproved + r.withdrawalsPending)
    && r.periodBalance == Max(0.0, r.baseGross - r.bonusBalance - a.balanceAdjustment - r.totalFraudDeduction)
  }

  method Settle(self: Self, st: Settings, q: Query, a: Accounts, kept: seq<HouseBalance>, ghost ps: Journal)
    returns (r: Report)
    requires Kept(a, ps, kept)
    ensures Accounted(r, self, st, q, ps) && Reconciled(r)
  {
    var totalFraud := a.myFraudDeduction + a.networkFraudDeduction;
    var bonus := if q.house.Some? then 0.0 else self.bonus;
    var totalled := SetTotals(kept);
    var approved, pending, perHouse := DeductWithdrawals(st, q, self.withdrawals, totalled);
    SettledHouses(a, ps, kept, st, q, self.withdrawals, perHouse);
    HousesHoldTheNet(a, ps, kept, WithdrawalPostings(st, q, self.withdrawals, |self.withdrawals|), approved + pending);
    var baseGross := a.myCpa + a.myRev + a.networkCpa + a.networkRev + bonus + a.balanceAdjustment;
    var grossBalance := Max(0.0, baseGross) - totalFraud;
    var periodGross := a.myCpa + a.myRev + a.networkCpa + a.networkRev - totalFraud;
    r := Report(grossBalance - (approved + pending), Max(0.0, periodGross), baseGross, grossBalance, approved,
                pending, a, bonus, totalFraud, perHouse);
  }

  method GetBalance(users: seq<User>, head: string, self: Self, data: seq<DataRow>, st: Settings, q: Query,
                    dimension: DimensionOf)
    returns (r: Report)
    requires DistinctIds(users)
    ensures Accounted(r, self, st, q,
                      Postings(self, MembersOf(users, head, dimension, |users|), data, st, q, dimension))
    ensures Reconciled(r)
  {
    var members := LoadNetworkMembers(users, head, dimension);
    var a, perHouse := Earn(self.links, members, data, st, q, dimension);
    ghost var earned := EarningPostings(self.links, members, data, st, q, dimension);
    a, perHouse := Deduct(self, members, q, dimension, a, perHouse, earned);
    r := Settle(self, st, q, a, perHouse, WithDeductions(earned, self, members, q, dimension));
  }
}
