/**
 What one campaign's qualified CPAs cost: the owner's own commission and the margins of everyone above.
 The margins telescope along the referral chain.
 */
module Commission {
  import opened Basics
  import opened Referral
  import opened NetworkMembers
  import opened Balance

  /** The CPA commission in a journal that comes from one campaign. */
  function CampaignCpa(j: Journal, c: string): real {
    match j
    case Empty => 0.0
    case One(p) => if p.Entry? && p.campaign == Some(c) then AmountIn(p, Cpa) + AmountIn(p, NetworkCpa) else 0.0
    case Both(first, second) => CampaignCpa(first, c) + CampaignCpa(second, c)
  }

  lemma {:induction false} OpeningPaysNothing(q: Query, links: seq<NetLink>, n: nat, c: string)
    requires n <= |links|
    ensures CampaignCpa(OpenPostings(q, links, n), c) == 0.0
  {
    if n > 0 {
      OpeningPaysNothing(q, links, n - 1, c);
    }
  }

  lemma CpaAmountAdds(a: real, b: real, n: int)
    ensures CpaAmount(a + b, n) == CpaAmount(a, n) + CpaAmount(b, n)
  {
  }

  lemma CountsAdd(rate: real, m: int, n: int)
    ensures CpaAmount(rate, m + n) == CpaAmount(rate, m) + CpaAmount(rate, n)
  {
  }

  // ----- The count of a campaign, through the grouped query -----

  /** The CPAs of all groups with the given key. */
  function GroupCpa(rows: seq<AggRow>, n: nat, c: string, house: string): int
    requires n <= |rows|
  {
    if n == 0 then 0
    else
      GroupCpa(rows, n - 1, c, house)
      + if rows[n - 1].campaign == c && rows[n - 1].house == house then rows[n - 1].cpaQualified else 0
  }

  /** The CPAs that a filter lets through for one campaign. */
  function Qualified(data: seq<DataRow>, f: Filter, c: string, house: string): int {
    if data == [] then 0
    else
      var r := data[|data| - 1];
      Qualified(data[..|data| - 1], f, c, house)
          + if Selected(f, r) && r.campaign == c && r.house == house then r.cpaQualified else 0
  }

  lemma {:induction false} GroupCpaFirst(rows: seq<AggRow>, n: nat, c: string, house: string)
    requires 0 < n <= |rows|
    ensures GroupCpa(rows, n, c, house) ==
            (if rows[0].campaign == c && rows[0].house == house then rows[0].cpaQualified else 0)
                + GroupCpa(rows[1..], n - 1, c, house)
  {
    if n > 1 {
      GroupCpaFirst(rows, n - 1, c, house);
    }
  }

  lemma {:induction false} AddToGroupAdds(groups: seq<AggRow>, r: DataRow, c: string, house: string)
    ensures var after := AddToGroup(groups, r);
            GroupCpa(after, |after|, c, house) ==
            GroupCpa(groups, |groups|, c, house) + if r.campaign == c && r.house == house then r.cpaQualified else 0
  {
    var after := AddToGroup(groups, r);
    GroupCpaFirst(after, |after|, c, house);
    if groups == [] {
      assert after[1..] == [];
    } else {
      GroupCpaFirst(groups, |groups|, c, house);
      if groups[0].campaign == r.campaign && groups[0].house == r.house {
        assert after[1..] == groups[1..];
      } else {
        AddToGroupAdds(groups[1..], r, c, house);
        assert after[1..] == AddToGroup(groups[1..], r);
      }
    }
  }

  /** Grouping loses no CPA. */
  lemma {:induction false} GroupsHoldTheData(data: seq<DataRow>, f: Filter, c: string, house: string)
    ensures var rows := Aggregate(data, f); GroupCpa(rows, |rows|, c, house) == Qualified(data, f, c, house)
  {
    if data != [] {
      GroupsHoldTheData(data[..|data| - 1], f, c, house);
      AddToGroupAdds(Aggregate(data[..|data| - 1], f), data[|data| - 1], c, house);
    }
  }

  ghost predicate DistinctGroups(rows: seq<AggRow>) {
    forall i, j | 0 <= i < j < |rows| :: rows[i].campaign != rows[j].campaign || rows[i].house != rows[j].house
  }

  lemma {:induction false} AddToGroupKeys(groups: seq<AggRow>, r: DataRow)
    requires DistinctGroups(groups)
    ensures var after := AddToGroup(groups, r);
            && DistinctGroups(after) && |groups| <= |after| <= |groups| + 1
            && (forall i | 0 <= i < |groups| ::
                after[i].campaign == groups[i].campaign && after[i].house == groups[i].house)
            && (|after| > |groups| ==> after[|groups|].campaign == r.campaign && after[|groups|].house == r.house)
            && (|after| > |groups| ==> forall i | 0 <= i < |groups| ::
                groups[i].campaign != r.campaign || groups[i].house != r.house)
  {
    if groups != [] && (groups[0].campaign != r.campaign || groups[0].house != r.house) {
      AddToGroupKeys(groups[1..], r);
      assert AddToGroup(groups, r)[1..] == AddToGroup(groups[1..], r);
    }
  }

  lemma {:induction false} GroupsAreDistinct(data: seq<DataRow>, f: Filter)
    ensures DistinctGroups(Aggregate(data, f))
    ensures forall g | g in Aggregate(data, f) :: exists r | r in data :: g.house == r.house
  {
    if data != [] {
      var init := data[..|data| - 1];
      GroupsAreDistinct(init, f);
      AddToGroupKeys(Aggregate(init, f), data[|data| - 1]);
      var groups := Aggregate(data, f);
      forall g | g in groups
        ensures exists r | r in data :: g.house == r.house
      {
        var i :| 0 <= i < |groups| && groups[i] == g;
        if i < |Aggregate(init, f)| {
          assert Aggregate(init, f)[i] in Aggregate(init, f);
          var r :| r in init && r.house == Aggregate(init, f)[i].house;
          assert r in data;
        } else {
          assert data[|data| - 1] in data;
        }
      }
    }
  }

  // ----- The lookup by key text -----

  /** The text after the last underscore. */
  function AfterUnderscore(k: string): string {
    if k == "" || k[|k| - 1] == '_' then "" else AfterUnderscore(k[..|k| - 1]) + [k[|k| - 1]]
  }

  lemma {:induction false} HouseOfKey(c: string, h: string)
    requires '_' !in h
    ensures AfterUnderscore(AggKey(c, h)) == h
  {
    if h != "" {
      HouseOfKey(c, h[..|h| - 1]);
      assert AggKey(c, h)[..|AggKey(c, h)| - 1] == AggKey(c, h[..|h| - 1]);
      assert h == h[..|h| - 1] + [h[|h| - 1]];
    }
  }

  /** Slugs have no underscore, so the joined key tells campaign and house apart. */
  lemma AggKeyIsInjective(c1: string, h1: string, c2: string, h2: string)
    requires '_' !in h1 && '_' !in h2 && AggKey(c1, h1) == AggKey(c2, h2)
    ensures c1 == c2 && h1 == h2
  {
    HouseOfKey(c1, h1);
    HouseOfKey(c2, h2);
    assert c1 == AggKey(c1, h1)[..|AggKey(c1, h1)| - |h1| - 2];
    assert c2 == AggKey(c2, h2)[..|AggKey(c2, h2)| - |h2| - 2];
  }

  ghost predicate PlainHouses(rows: seq<AggRow>) {
    forall r | r in rows :: '_' !in r.house
  }

  lemma {:induction false} AggMapHoldsTheGroup(rows: seq<AggRow>, n: nat, c: string, house: string)
    requires n <= |rows| && DistinctGroups(rows) && PlainHouses(rows) && '_' !in house
    ensures var m, k := AggMap(rows, n), AggKey(c, house);
            && (k in m ==> m[k].cpaQualified == GroupCpa(rows, n, c, house))
            && (k !in m ==> GroupCpa(rows, n, c, house) == 0 && forall i | 0 <= i < n ::
                rows[i].campaign != c || rows[i].house != house)
  {
    if n > 0 {
      AggMapHoldsTheGroup(rows, n - 1, c, house);
      var r := rows[n - 1];
      if AggKey(r.campaign, r.house) == AggKey(c, house) {
        AggKeyIsInjective(r.campaign, r.house, c, house);
        NoEarlierGroup(rows, n - 1, n - 1);
      }
    }
  }

  lemma {:induction false} NoEarlierGroup(rows: seq<AggRow>, i: nat, n: nat)
    requires n <= i < |rows| && DistinctGroups(rows)
    ensures GroupCpa(rows, n, rows[i].campaign, rows[i].house) == 0
  {
    if n > 0 {
      NoEarlierGroup(rows, i, n - 1);
    }
  }

  // ----- One campaign's link -----

  /** The only link with campaign `c` in a list, which may be absent from it. */
  ghost predicate Only(links: seq<NetLink>, ml: NetLink) {
    forall l | l in links && l.campaign == ml.campaign :: l == ml
  }

  lemma {:induction false} CutoverOfLink(links: seq<NetLink>, ml: NetLink, st: Settings, start: int)
    requires Only(links, ml)
    ensures var m := CampaignCutovers(links, st, start);
            if ml in links && ml.house in st.houseCutover && st.houseCutover[ml.house] > start
            then ml.campaign in m && m[ml.campaign] == st.houseCutover[ml.house]
            else ml.campaign !in m
  {
    if links != [] {
      var init, l := links[..|links| - 1], links[|links| - 1];
      assert links == init + [l];
      CutoverOfLink(init, ml, st, start);
    }
  }

  /** The filter for one campaign alone. */
  function LinkFilter(q: Query, st: Settings, ml: NetLink): Filter {
    DataFilter(q, st, [ml], [ml])
  }

  /** Whatever other links take part in a query, it counts the same rows for this campaign. */
  lemma {:induction false} SameCount(data: seq<DataRow>, q: Query, st: Settings, ml: NetLink, links: seq<NetLink>,
                                     cutoverLinks: seq<NetLink>, house: string)
    requires Scoped(q, ml.house) && ml in links && ml in cutoverLinks && Only(cutoverLinks, ml)
    ensures Qualified(data, DataFilter(q, st, links, cutoverLinks), ml.campaign, house) ==
        Qualified(data, LinkFilter(q, st, ml), ml.campaign, house)
  {
    if data != [] {
      var r := data[|data| - 1];
      SameCount(data[..|data| - 1], q, st, ml, links, cutoverLinks, house);
      CutoverOfLink(cutoverLinks, ml, st, StartOf(st, q));
      CutoverOfLink([ml], ml, st, StartOf(st, q));
      if r.campaign == ml.campaign {
        assert r.campaign in CampaignsOf(q, links) && r.campaign in CampaignsOf(q, [ml]);
      }
    }
  }

  // ----- Own commission -----

  lemma {:induction false} FindOwnerIs(links: seq<NetLink>, row: AggRow, ml: NetLink)
    requires Only(links, ml) && row.campaign == ml.campaign
    ensures FindOwner(links, row) == if ml in links && DataSourceHouse(ml.house) == row.house then Some(ml) else None
  {
    if links != [] {
      assert Only(links[1..], ml);
      FindOwnerIs(links[1..], row, ml);
    }
  }

  /** The commission on all groups with the key, group by group. */
  function GroupAmounts(rate: real, rows: seq<AggRow>, n: nat, c: string, house: string): real
    requires n <= |rows|
  {
    if n == 0 then 0.0
    else
      GroupAmounts(rate, rows, n - 1, c, house)
      + if rows[n - 1].campaign == c && rows[n - 1].house == house
          then CpaAmount(rate, rows[n - 1].cpaQualified) else 0.0
  }

  lemma {:induction false} AmountOfGroups(rate: real, rows: seq<AggRow>, n: nat, c: string, house: string)
    requires n <= |rows|
    ensures GroupAmounts(rate, rows, n, c, house) == CpaAmount(rate, GroupCpa(rows, n, c, house))
  {
    if n > 0 {
      AmountOfGroups(rate, rows, n - 1, c, house);
      if rows[n - 1].campaign == c && rows[n - 1].house == house {
        CountsAdd(rate, GroupCpa(rows, n - 1, c, house), rows[n - 1].cpaQualified);
      }
    }
  }

  lemma {:induction false} OwnPays(links: seq<NetLink>, rows: seq<AggRow>, n: nat, ml: NetLink)
    requires n <= |rows| && Only(links, ml)
    ensures CampaignCpa(OwnPostings(links, rows, n), ml.campaign) ==
            if ml in links then GroupAmounts(Rate(ml.cpa), rows, n, ml.campaign, DataSourceHouse(ml.house)) else 0.0
  {
    if n > 0 {
      OwnPays(links, rows, n - 1, ml);
      OwnRowPays(links, rows[n - 1], ml);
    }
  }

  lemma OwnRowPays(links: seq<NetLink>, row: AggRow, ml: NetLink)
    requires Only(links, ml)
    ensures CampaignCpa(OwnEntries(links, row), ml.campaign) ==
            if ml in links && row.campaign == ml.campaign && row.house == DataSourceHouse(ml.house)
            then CpaAmount(Rate(ml.cpa), row.cpaQualified) else 0.0
  {
    var owner := FindOwner(links, row);
    if row.campaign == ml.campaign {
      FindOwnerIs(links, row, ml);
    }
  }

  // ----- Rates at one house -----

  /** At most one link at the house, with a rate that is not negative. */
  ghost predicate OneRate(links: seq<NetLink>, house: string) {
    && (forall i, j | 0 <= i < j < |links| :: links[i].house != house || links[j].house != house)
    && (forall l | l in links && l.house == house :: Rate(l.cpa) >= 0.0)
  }

  lemma {:induction false} FindByHouseMeans(links: seq<NetLink>, house: string)
    ensures var r := FindByHouse(links, house);
            && (r.Some? ==> r.value in links && r.value.house == house)
            && (r.None? ==> forall l | l in links :: l.house != house)
  {
    if links != [] {
      FindByHouseMeans(links[1..], house);
    }
  }

  lemma {:induction false} FindByHouseAppends(links: seq<NetLink>, l: NetLink, house: string)
    ensures FindByHouse(links + [l], house) ==
            if FindByHouse(links, house).Some?
            then FindByHouse(links, house) else if l.house == house then Some(l) else None
  {
    if links != [] {
      FindByHouseAppends(links[1..], l, house);
      assert (links + [l])[1..] == links[1..] + [l];
    }
  }

  lemma {:induction false} KeyIsHouse(links: seq<NetLink>, dimension: DimensionOf, house: string)
    requires !IsPinbet(house) && ':' !in house
    ensures FindByRateKey(links, dimension, house) == FindByHouse(links, house)
  {
    if links != [] {
      PinbetKeysAreApart(links[0], dimension, house);
      KeyIsHouse(links[1..], dimension, house);
    }
  }

  /** The anchor's recorded rate is the rate of the direct referral's link, zero included. */
  lemma {:induction false} AnchorRate(links: seq<NetLink>, dimension: DimensionOf, house: string)
    requires !IsPinbet(house) && ':' !in house && OneRate(links, house)
    ensures RateIn(RatesOf(links, dimension).cpa, house) == CpaRate(FindByHouse(links, house))
  {
    if links != [] {
      var init, l := links[..|links| - 1], links[|links| - 1];
      assert links == init + [l];
      AnchorRate(init, dimension, house);
      FindByHouseAppends(init, l, house);
      PinbetKeysAreApart(l, dimension, house);
      FindByHouseMeans(init, house);
    }
  }

  // ----- Network commission -----

  /** The margin on one link: my rate over the direct referral's. */
  function Margin(mine: real, l1: real): real {
    Max(0.0, mine - l1)
  }

  lemma LinkPays(mine: seq<NetLink>, m: Member, l: NetLink, agg: map<string, AggRow>, dimension: DimensionOf, c: string)
    ensures l.campaign != c ==> CampaignCpa(LinkEntries(mine, m, l, agg, dimension), c) == 0.0
    ensures l.campaign == c && !m.user.isExternal && !IsPinbet(l.house) && ':' !in l.house ==>
              CampaignCpa(LinkEntries(mine, m, l, agg, dimension), c) ==
              var k := AggKey(c, DataSourceHouse(l.house));
              if k in agg then CpaAmount(Margin(CpaRate(FindByHouse(mine, l.house)), RateIn(m.anchor.cpa, l.house)),
                                         agg[k].cpaQualified) else 0.0
  {
    if !IsPinbet(l.house) && ':' !in l.house {
      KeyIsHouse(mine, dimension, l.house);
    }
  }

  /** What one member's link `ml` is worth to a user above, given the count found for it. */
  function ShareOf(mine: seq<NetLink>, m: Member, ml: NetLink, agg: map<string, AggRow>): real {
    var k := AggKey(ml.campaign, DataSourceHouse(ml.house));
    if k in agg then CpaAmount(Margin(CpaRate(FindByHouse(mine, ml.house)), RateIn(m.anchor.cpa, ml.house)),
                               agg[k].cpaQualified) else 0.0
  }

  /** A running total that moves only once. */
  lemma {:induction false} MovesOnce(totals: seq<real>, at: nat, step: real, n: nat)
    requires n < |totals| && totals[0] == 0.0
    requires forall i | 0 <= i < n :: totals[i + 1] == totals[i] + if i == at then step else 0.0
    ensures totals[n] == if at < n then step else 0.0
  {
    if n > 0 {
      MovesOnce(totals, at, step, n - 1);
    }
  }

  lemma NextLinkPays(mine: seq<NetLink>, m: Member, agg: map<string, AggRow>, dimension: DimensionOf, n: nat,
                     ml: NetLink, at: nat, share: real)
    requires n < |m.user.links| && Only(m.user.links, ml) && (m.user.links[n] == ml <==> n == at)
    requires !m.user.isExternal && !IsPinbet(ml.house) && ':' !in ml.house && share == ShareOf(mine, m, ml, agg)
    ensures CampaignCpa(MemberPostings(mine, m, agg, dimension, n + 1), ml.campaign) ==
            CampaignCpa(MemberPostings(mine, m, agg, dimension, n), ml.campaign) + if n == at then share else 0.0
  {
    var l := m.user.links[n];
    LinkPays(mine, m, l, agg, dimension, ml.campaign);
    assert l.campaign == ml.campaign ==> l == ml;
  }

  /** The running totals over a member's links. */
  function LinkTotals(mine: seq<NetLink>, m: Member, agg: map<string, AggRow>, dimension: DimensionOf,
                      c: string): seq<real> {
    seq(|m.user.links| + 1,
        i requires 0 <= i <= |m.user.links| => CampaignCpa(MemberPostings(mine, m, agg, dimension, i), c))
  }

  lemma LinkTotalMoves(mine: seq<NetLink>, m: Member, agg: map<string, AggRow>, dimension: DimensionOf, ml: NetLink,
                       at: nat, share: real, i: nat)
    requires Only(m.user.links, ml) && OneRate(m.user.links, ml.house) && i < |m.user.links|
    requires !m.user.isExternal && !IsPinbet(ml.house) && ':' !in ml.house
    requires at == (if ml in m.user.links then IndexOf(m.user.links, ml) else |m.user.links|)
        && share == ShareOf(mine, m, ml, agg)
    ensures var totals := LinkTotals(mine, m, agg, dimension, ml.campaign);
            totals[i + 1] == totals[i] + if i == at then share else 0.0
  {
    LinkIsAt(m.user.links, ml, at, i);
    NextLinkPays(mine, m, agg, dimension, i, ml, at, share);
  }

  lemma MemberPays(mine: seq<NetLink>, m: Member, agg: map<string, AggRow>, dimension: DimensionOf, ml: NetLink)
    requires Only(m.user.links, ml) && OneRate(m.user.links, ml.house)
    requires !m.user.isExternal && !IsPinbet(ml.house) && ':' !in ml.house
    ensures CampaignCpa(MemberPostings(mine, m, agg, dimension, |m.user.links|), ml.campaign) ==
            if ml in m.user.links then ShareOf(mine, m, ml, agg) else 0.0
  {
    var n, share := |m.user.links|, ShareOf(mine, m, ml, agg);
    var totals := LinkTotals(mine, m, agg, dimension, ml.campaign);
    var at := if ml in m.user.links then IndexOf(m.user.links, ml) else n;
    forall i | 0 <= i < n
      ensures totals[i + 1] == totals[i] + if i == at then share else 0.0
    {
      LinkTotalMoves(mine, m, agg, dimension, ml, at, share, i);
    }
    MovesOnce(totals, at, share, n);
  }

  lemma LinkIsAt(links: seq<NetLink>, ml: NetLink, at: nat, i: nat)
    requires OneRate(links, ml.house) && at == (if ml in links then IndexOf(links, ml) else |links|) && i < |links|
    ensures links[i] == ml <==> i == at
  {
  }

  function IndexOf(links: seq<NetLink>, l: NetLink): (i: nat)
    requires l in links
    ensures i < |links| && links[i] == l
  {
    if links[0] == l then 0 else 1 + IndexOf(links[1..], l)
  }

  lemma {:induction false} NetworkPrefix(mine: seq<NetLink>, members: seq<Member>, m: Member, agg: map<string,
                                         AggRow>, dimension: DimensionOf, n: nat)
    requires n <= |members|
    ensures NetworkPostings(mine, members + [m], agg, dimension, n) == NetworkPostings(mine, members, agg, dimension, n)
  {
    if n > 0 {
      NetworkPrefix(mine, members, m, agg, dimension, n - 1);
    }
  }

  /** The network commission from campaign `c` through a list of members. */
  function CpaThrough(mine: seq<NetLink>, members: seq<Member>, agg: map<string, AggRow>, dimension: DimensionOf,
                      c: string): real {
    CampaignCpa(NetworkPostings(mine, members, agg, dimension, |members|), c)
  }

  lemma NetworkGrows(mine: seq<NetLink>, before: seq<Member>, m: Member, agg: map<string, AggRow>,
                     dimension: DimensionOf, c: string)
    ensures CpaThrough(mine, before + [m], agg, dimension, c) ==
            CpaThrough(mine, before, agg, dimension, c)
                + CampaignCpa(MemberPostings(mine, m, agg, dimension, |m.user.links|), c)
  {
    NetworkPrefix(mine, before, m, agg, dimension, |before|);
  }

  /** One campaign on one link of one user; elsewhere at most one link per user and house, and nobody external. */
  ghost predicate Tariff(users: seq<User>, owner: User, ml: NetLink) {
    && owner in users && ml in owner.links
    && (forall u | u in users ::
        OneRate(u.links, ml.house) && Only(u.links, ml) && !u.isExternal && (u != owner ==> ml !in u.links))
    && !IsPinbet(ml.house) && ':' !in ml.house
  }

  lemma UserPays(users: seq<User>, mine: seq<NetLink>, m: Member, agg: map<string, AggRow>, dimension: DimensionOf,
                 owner: User, ml: NetLink)
    requires Tariff(users, owner, ml) && m.user in users
    ensures CampaignCpa(MemberPostings(mine, m, agg, dimension, |m.user.links|), ml.campaign) ==
            if m.user == owner then ShareOf(mine, m, ml, agg) else 0.0
  {
    MemberPays(mine, m, agg, dimension, ml);
  }

  /** The network commission from campaign `c` through the first `n` users. */
  function NetworkCpaFrom(users: seq<User>, head: string, mine: seq<NetLink>, agg: map<string, AggRow>,
                          dimension: DimensionOf, n: nat, c: string): real
    requires n <= |users|
  {
    CpaThrough(mine, MembersOf(users, head, dimension, n), agg, dimension, c)
  }

  ghost predicate IsAt(users: seq<User>, at: nat, owner: User) {
    at < |users| && users[at] == owner && forall i | 0 <= i < |users| && i != at :: users[i] != owner
  }

  /** What the owner's membership is worth to a user above. */
  function MemberShare(users: seq<User>, head: string, mine: seq<NetLink>, agg: map<string, AggRow>,
                       dimension: DimensionOf, owner: User, ml: NetLink): real {
    if IsMet(RefsOf(users), head, owner.id)
    then ShareOf(mine, MemberOf(users, head, dimension, owner), ml, agg) else 0.0
  }

  /** What one user's links bring to a user above, if that user is a member. */
  function MemberCpa(users: seq<User>, head: string, mine: seq<NetLink>, agg: map<string, AggRow>,
                     dimension: DimensionOf, u: User, c: string): real {
    if IsMet(RefsOf(users), head, u.id) && u.links != []
    then CampaignCpa(MemberPostings(mine, MemberOf(users, head, dimension, u), agg, dimension, |u.links|), c)
    else 0.0
  }

  lemma UserAdds(users: seq<User>, head: string, mine: seq<NetLink>, agg: map<string, AggRow>, dimension: DimensionOf,
                 n: nat, c: string)
    requires n < |users|
    ensures NetworkCpaFrom(users, head, mine, agg, dimension, n + 1, c) ==
            NetworkCpaFrom(users, head, mine, agg, dimension, n, c)
                + MemberCpa(users, head, mine, agg, dimension, users[n], c)
  {
    var u, before := users[n], MembersOf(users, head, dimension, n);
    if IsMet(RefsOf(users), head, u.id) && u.links != [] {
      assert MembersOf(users, head, dimension, n + 1) == before + [MemberOf(users, head, dimension, u)];
      NetworkGrows(mine, before, MemberOf(users, head, dimension, u), agg, dimension, c);
    } else {
      assert MembersOf(users, head, dimension, n + 1) == before;
    }
  }

  lemma OnlyTheOwnerAdds(users: seq<User>, head: string, mine: seq<NetLink>, agg: map<string, AggRow>,
                         dimension: DimensionOf, u: User, owner: User, ml: NetLink)
    requires Tariff(users, owner, ml) && u in users
    ensures MemberCpa(users, head, mine, agg, dimension, u, ml.campaign) ==
            if u == owner then MemberShare(users, head, mine, agg, dimension, owner, ml) else 0.0
  {
    if IsMet(RefsOf(users), head, u.id) {
      UserPays(users, mine, MemberOf(users, head, dimension, u), agg, dimension, owner, ml);
    }
  }

  lemma NextUserPays(users: seq<User>, head: string, mine: seq<NetLink>, agg: map<string, AggRow>,
                     dimension: DimensionOf, n: nat, owner: User, ml: NetLink, at: nat)
    requires n < |users| && Tariff(users, owner, ml) && IsAt(users, at, owner)
    ensures NetworkCpaFrom(users, head, mine, agg, dimension, n + 1, ml.campaign) ==
            NetworkCpaFrom(users, head, mine, agg, dimension, n, ml.campaign)
            + if n == at then MemberShare(users, head, mine, agg, dimension, owner, ml) else 0.0
  {
    UserAdds(users, head, mine, agg, dimension, n, ml.campaign);
    OnlyTheOwnerAdds(users, head, mine, agg, dimension, users[n], owner, ml);
  }

  /** The running totals of a user's network commission from campaign `c`. */
  ghost predicate Totals(users: seq<User>, head: string, mine: seq<NetLink>, agg: map<string, AggRow>,
                         dimension: DimensionOf, c: string, totals: seq<real>) {
    |totals| == |users| + 1 && forall i | 0 <= i < |totals| ::
        totals[i] == NetworkCpaFrom(users, head, mine, agg, dimension, i, c)
  }

  lemma TotalStep(users: seq<User>, head: string, mine: seq<NetLink>, agg: map<string, AggRow>, dimension: DimensionOf,
                  owner: User, ml: NetLink, at: nat, totals: seq<real>, i: nat, share: real)
    requires i < |users| && Tariff(users, owner, ml) && IsAt(users, at, owner)
        && Totals(users, head, mine, agg, dimension, ml.campaign, totals)
    requires share == MemberShare(users, head, mine, agg, dimension, owner, ml)
    ensures totals[i + 1] == totals[i] + if i == at then share else 0.0
  {
    NextUserPays(users, head, mine, agg, dimension, i, owner, ml, at);
  }

  /** Everything the campaign brings a user from below comes through the one member who owns it. */
  lemma NetworkPays(users: seq<User>, head: string, mine: seq<NetLink>, agg: map<string, AggRow>,
                    dimension: DimensionOf, owner: User, ml: NetLink, at: nat)
    requires Tariff(users, owner, ml) && IsAt(users, at, owner)
    ensures NetworkCpaFrom(users, head, mine, agg, dimension, |users|, ml.campaign) ==
        MemberShare(users, head, mine, agg, dimension, owner, ml)
  {
    var totals := seq(|users| + 1,
                      i requires 0 <= i <= |users| => NetworkCpaFrom(users, head, mine, agg, dimension, i,
                                                                     ml.campaign));
    var share := MemberShare(users, head, mine, agg, dimension, owner, ml);
    forall i | 0 <= i < |users|
      ensures totals[i + 1] == totals[i] + if i == at then share else 0.0
    {
      TotalStep(users, head, mine, agg, dimension, owner, ml, at, totals, i, share);
    }
    NobodyPays(users, head, mine, agg, dimension, ml.campaign);
    MovesOnce(totals, at, share, |users|);
  }

  lemma NobodyPays(users: seq<User>, head: string, mine: seq<NetLink>, agg: map<string, AggRow>,
                   dimension: DimensionOf, c: string)
    ensures NetworkCpaFrom(users, head, mine, agg, dimension, 0, c) == 0.0
  {
  }

  // ----- What one campaign pays one user -----

  datatype World = World(users: seq<User>, data: seq<DataRow>, st: Settings, q: Query, dimension: DimensionOf)

  /**
   A forest in which `owner` has the campaign of `ml`; the balance is asked for that house or for all, and slugs are
   plain.
   */
  ghost predicate Setting(w: World, owner: User, ml: NetLink) {
    && DistinctIds(w.users) && Acyclic(RefsOf(w.users))
    && Tariff(w.users, owner, ml)
    && Scoped(w.q, ml.house)
    && '_' !in DataSourceHouse(ml.house) && forall r | r in w.data :: '_' !in r.house
  }

  /** The campaign's qualified CPAs in the window. */
  function CountOf(w: World, ml: NetLink): int {
    Qualified(w.data, LinkFilter(w.q, w.st, ml), ml.campaign, DataSourceHouse(ml.house))
  }

  /** A user's CPA rate at a house, none counting as zero. */
  function RateAt(users: seq<User>, id: string, house: string): real {
    CpaRate(FindByHouse(LinksOf(users, id), house))
  }

  /** The commission that steps 1 and 2 of the balance give `v` for campaign `c`. */
  function PaidTo(w: World, v: User, c: string): real {
    CampaignCpa(EarningPostings(v.links, MembersOf(w.users, v.id, w.dimension, |w.users|), w.data, w.st, w.q,
                                w.dimension), c)
  }

  /** The rate behind it: the owner's own rate, a margin for everyone up to the cap above, nothing for others. */
  function ShareRate(users: seq<User>, owner: User, house: string, v: string): real {
    var refs := RefsOf(users);
    if v == owner.id then RateAt(users, v, house)
    else if IsMet(refs, v, owner.id) then
      Margin(RateAt(users, v, house), RateAt(users, Anchor(refs, owner.id, v, NETWORK_LEVEL_CAP), house))
    else 0.0
  }

  lemma {:induction false} AllLinksMeans(members: seq<Member>, l: NetLink)
    ensures l in AllLinks(members) <==> exists m | m in members :: l in m.user.links
  {
    if members != [] {
      AllLinksMeans(members[1..], l);
    }
  }

  lemma {:induction false} LinksOfSomeone(users: seq<User>, id: string)
    ensures LinksOf(users, id) == [] || exists u | u in users :: u.links == LinksOf(users, id)
  {
    if users != [] && users[0].id != id {
      LinksOfSomeone(users[1..], id);
    }
  }

  lemma OneRateOf(users: seq<User>, owner: User, ml: NetLink, id: string)
    requires Tariff(users, owner, ml)
    ensures OneRate(LinksOf(users, id), ml.house) && RateAt(users, id, ml.house) >= 0.0
  {
    LinksOfSomeone(users, id);
    FindByHouseMeans(LinksOf(users, id), ml.house);
  }

  lemma NetworkLinks(w: World, v: User, owner: User, ml: NetLink)
    requires Setting(w, owner, ml) && v in w.users && IsMet(RefsOf(w.users), v.id, owner.id)
    ensures var links := AllLinks(MembersOf(w.users, v.id, w.dimension, |w.users|));
            ml in links && Only(v.links + links, ml)
  {
    var members := MembersOf(w.users, v.id, w.dimension, |w.users|);
    MembersMean(w.users, v.id, w.dimension, |w.users|, MemberOf(w.users, v.id, w.dimension, owner));
    assert w.users[..|w.users|] == w.users;
    AllLinksMeans(members, ml);
    assert exists m | m in members :: ml in m.user.links by {
      assert MemberOf(w.users, v.id, w.dimension, owner).user == owner;
    }
    forall l | l in v.links + AllLinks(members) && l.campaign == ml.campaign
      ensures l == ml
    {
      if l !in v.links {
        AllLinksMeans(members, l);
        var m :| m in members && l in m.user.links;
        MembersMean(w.users, v.id, w.dimension, |w.users|, m);
      }
    }
  }

  /** The count a network lookup finds is the campaign's count, none being zero. */
  lemma NetworkCount(w: World, v: User, owner: User, ml: NetLink)
    requires Setting(w, owner, ml) && v in w.users && IsMet(RefsOf(w.users), v.id, owner.id)
    ensures var rows := NetworkRows(v.links, MembersOf(w.users, v.id, w.dimension, |w.users|), w.data, w.st, w.q);
            var agg, k := AggMap(rows, |rows|), AggKey(ml.campaign, DataSourceHouse(ml.house));
            if k in agg then agg[k].cpaQualified == CountOf(w, ml) else CountOf(w, ml) == 0
  {
    var links := AllLinks(MembersOf(w.users, v.id, w.dimension, |w.users|));
    var f := DataFilter(w.q, w.st, links, v.links + links);
    var rows, house := Aggregate(w.data, f), DataSourceHouse(ml.house);
    NetworkLinks(w, v, owner, ml);
    SameCount(w.data, w.q, w.st, ml, links, v.links + links, house);
    GroupsHoldTheData(w.data, f, ml.campaign, house);
    GroupsAreDistinct(w.data, f);
    AggMapHoldsTheGroup(rows, |rows|, ml.campaign, house);
  }

  lemma AnchorRateIs(users: seq<User>, dimension: DimensionOf, v: string, owner: User, ml: NetLink)
    requires Tariff(users, owner, ml) && IsMet(RefsOf(users), v, owner.id)
    ensures RateIn(MemberOf(users, v, dimension, owner).anchor.cpa, ml.house) ==
            RateAt(users, Anchor(RefsOf(users), owner.id, v, NETWORK_LEVEL_CAP), ml.house)
  {
    var anchor := Anchor(RefsOf(users), owner.id, v, NETWORK_LEVEL_CAP);
    OneRateOf(users, owner, ml, anchor);
    AnchorRate(LinksOf(users, anchor), dimension, ml.house);
  }

  lemma ShareWithCount(users: seq<User>, dimension: DimensionOf, v: User, owner: User, ml: NetLink, agg: map<string,
                       AggRow>, count: int)
    requires DistinctIds(users) && Tariff(users, owner, ml) && v in users && IsMet(RefsOf(users), v.id, owner.id)
    requires var k := AggKey(ml.campaign, DataSourceHouse(ml.house)); if k in agg
        then agg[k].cpaQualified == count else count == 0
    ensures ShareOf(v.links, MemberOf(users, v.id, dimension, owner), ml, agg) ==
            CpaAmount(Margin(RateAt(users, v.id, ml.house),
                             RateAt(users, Anchor(RefsOf(users), owner.id, v.id, NETWORK_LEVEL_CAP), ml.house)), count)
  {
    LinksKnown(users, v);
    AnchorRateIs(users, dimension, v.id, owner, ml);
  }

  lemma NetworkShare(w: World, v: User, owner: User, ml: NetLink)
    requires Setting(w, owner, ml) && v in w.users && IsMet(RefsOf(w.users), v.id, owner.id)
    ensures var rows := NetworkRows(v.links, MembersOf(w.users, v.id, w.dimension, |w.users|), w.data, w.st, w.q);
            ShareOf(v.links, MemberOf(w.users, v.id, w.dimension, owner), ml, AggMap(rows, |rows|)) ==
            CpaAmount(Margin(RateAt(w.users, v.id, ml.house),
                             RateAt(w.users, Anchor(RefsOf(w.users), owner.id, v.id, NETWORK_LEVEL_CAP), ml.house)),
                                 CountOf(w, ml))
  {
    var rows := NetworkRows(v.links, MembersOf(w.users, v.id, w.dimension, |w.users|), w.data, w.st, w.q);
    NetworkCount(w, v, owner, ml);
    ShareWithCount(w.users, w.dimension, v, owner, ml, AggMap(rows, |rows|), CountOf(w, ml));
  }

  lemma OwnShare(w: World, v: User, owner: User, ml: NetLink)
    requires Setting(w, owner, ml) && v in w.users
    ensures var rows := OwnRows(v.links, w.data, w.st, w.q);
            CampaignCpa(OwnPostings(v.links, rows, |rows|), ml.campaign) ==
            if v == owner then CpaAmount(RateAt(w.users, v.id, ml.house), CountOf(w, ml)) else 0.0
  {
    var rows, house := OwnRows(v.links, w.data, w.st, w.q), DataSourceHouse(ml.house);
    OwnPays(v.links, rows, |rows|, ml);
    if v == owner {
      AmountOfGroups(Rate(ml.cpa), rows, |rows|, ml.campaign, house);
      GroupsHoldTheData(w.data, DataFilter(w.q, w.st, v.links, v.links), ml.campaign, house);
      SameCount(w.data, w.q, w.st, ml, v.links, v.links, house);
      LinksKnown(w.users, v);
      FindByHouseMeans(v.links, ml.house);
      LinkIsFound(v.links, ml);
    }
  }

  lemma LinkIsFound(links: seq<NetLink>, ml: NetLink)
    requires ml in links && OneRate(links, ml.house)
    ensures FindByHouse(links, ml.house) == Some(ml)
  {
    FindByHouseMeans(links, ml.house);
    var found := FindByHouse(links, ml.house).value;
    var i :| 0 <= i < |links| && links[i] == ml;
    var j :| 0 <= j < |links| && links[j] == found;
  }

  lemma UserIsPaid(w: World, v: User, owner: User, ml: NetLink)
    requires Setting(w, owner, ml) && v in w.users
    ensures PaidTo(w, v, ml.campaign) == CpaAmount(ShareRate(w.users, owner, ml.house, v.id), CountOf(w, ml))
  {
    var members := MembersOf(w.users, v.id, w.dimension, |w.users|);
    var network := NetworkRows(v.links, members, w.data, w.st, w.q);
    EarningsSplit(v.links, members, w, ml.campaign);
    OwnShare(w, v, owner, ml);
    SameIdSameUser(w.users, v, owner);
    var at :| 0 <= at < |w.users| && w.users[at] == owner;
    NetworkPays(w.users, v.id, v.links, AggMap(network, |network|), w.dimension, owner, ml, at);
    if IsMet(RefsOf(w.users), v.id, owner.id) {
      NetworkShare(w, v, owner, ml);
      NeverOwnMember(w, owner, ml);
    }
  }

  lemma FourParts(j1: Journal, j2: Journal, j3: Journal, j4: Journal, c: string)
    ensures CampaignCpa(Both(Both(Both(j1, j2), j3), j4), c) ==
            CampaignCpa(j1, c) + CampaignCpa(j2, c) + CampaignCpa(j3, c) + CampaignCpa(j4, c)
  {
    assert CampaignCpa(Both(Both(j1, j2), j3), c) == CampaignCpa(j1, c) + CampaignCpa(j2, c) + CampaignCpa(j3, c);
  }

  lemma EarningsSplit(mine: seq<NetLink>, members: seq<Member>, w: World, c: string)
    ensures var own, network := OwnRows(mine, w.data, w.st, w.q), NetworkRows(mine, members, w.data, w.st, w.q);
            CampaignCpa(EarningPostings(mine, members, w.data, w.st, w.q, w.dimension), c) ==
            CampaignCpa(OwnPostings(mine, own, |own|), c)
            + CampaignCpa(NetworkPostings(mine, members, AggMap(network, |network|), w.dimension, |members|), c)
  {
    var own, network, links := OwnRows(mine, w.data, w.st, w.q), NetworkRows(mine, members, w.data, w.st, w.q),
        AllLinks(members);
    OpeningPaysNothing(w.q, mine, |mine|, c);
    OpeningPaysNothing(w.q, links, |links|, c);
    FourParts(OpenPostings(w.q, mine, |mine|), OwnPostings(mine, own, |own|), OpenPostings(w.q, links, |links|),
              NetworkPostings(mine, members, AggMap(network, |network|), w.dimension, |members|), c);
  }

  lemma SameIdSameUser(users: seq<User>, u: User, v: User)
    requires DistinctIds(users) && u in users && v in users
    ensures u.id == v.id <==> u == v
    ensures exists at :: IsAt(users, at, u)
  {
    var i :| 0 <= i < |users| && users[i] == u;
    var j :| 0 <= j < |users| && users[j] == v;
    assert IsAt(users, i, u);
  }

  lemma NeverOwnMember(w: World, owner: User, ml: NetLink)
    requires Setting(w, owner, ml)
    ensures !IsMet(RefsOf(w.users), owner.id, owner.id)
  {
    forall k: nat | 1 <= k <= NETWORK_LEVEL_CAP
      ensures AncestorAt(RefsOf(w.users), owner.id, k) != Some(owner.id)
    {
      NotOwnAncestor(RefsOf(w.users), owner.id, k);
    }
    DepthIsFirstMeeting(RefsOf(w.users), owner.id, owner.id, NETWORK_LEVEL_CAP);
  }

  // ----- The chain above the owner -----

  /** The share that falls to the `k`-th user above the owner. */
  function StepRate(users: seq<User>, owner: string, house: string, k: nat): real {
    var a := AncestorAt(RefsOf(users), owner, k);
    if a.None? then 0.0
    else if k == 0 then RateAt(users, owner, house)
    else
      var below := AncestorAt(RefsOf(users), owner, k - 1);
      Margin(RateAt(users, a.value, house), if below.Some? then RateAt(users, below.value, house) else 0.0)
  }

  function ChainRate(users: seq<User>, owner: string, house: string, n: nat): real {
    StepRate(users, owner, house, n) + if n == 0 then 0.0 else ChainRate(users, owner, house, n - 1)
  }

  /** The highest user at most `n` hops above. */
  function Top(refs: Refs, u: string, n: nat): string {
    if AncestorAt(refs, u, n).Some? then AncestorAt(refs, u, n).value else if n == 0 then u else Top(refs, u, n - 1)
  }

  /** By how much rates fall on the way up. */
  function Drops(users: seq<User>, owner: string, house: string, n: nat): real {
    if n == 0 then 0.0
    else
      var above, below := AncestorAt(RefsOf(users), owner, n), AncestorAt(RefsOf(users), owner, n - 1);
      Drops(users, owner, house, n - 1)
      + if above.Some? && below.Some?
          then Margin(RateAt(users, below.value, house), RateAt(users, above.value, house)) else 0.0
  }

  lemma {:induction false} ChainIsUnbroken(refs: Refs, u: string, k: nat)
    requires AncestorAt(refs, u, k + 1).Some?
    ensures AncestorAt(refs, u, k).Some? && AncestorAt(refs, u, k).value in refs
    ensures AncestorAt(refs, u, k + 1) == Some(refs[AncestorAt(refs, u, k).value])
    decreases k
  {
    if k > 0 {
      ChainIsUnbroken(refs, refs[u], k - 1);
    }
  }

  /** The margins telescope: what the whole chain earns is the top's rate and whatever was lost on the way up. */
  lemma {:induction false} ChainTelescopes(users: seq<User>, owner: string, house: string, n: nat)
    ensures ChainRate(users, owner, house, n) ==
        RateAt(users, Top(RefsOf(users), owner, n), house) + Drops(users, owner, house, n)
  {
    if n > 0 {
      ChainTelescopes(users, owner, house, n - 1);
      if AncestorAt(RefsOf(users), owner, n).Some? {
        ChainIsUnbroken(RefsOf(users), owner, n - 1);
      }
    }
  }

  /** Rates never fall from one user to the next above, up to `n` hops. */
  ghost predicate RatesRise(users: seq<User>, owner: string, house: string, n: nat) {
    forall k: nat | k < n && AncestorAt(RefsOf(users), owner, k + 1).Some? ::
      StepRises(users, owner, house, k)
  }

  ghost predicate StepRises(users: seq<User>, owner: string, house: string, k: nat) {
    var below, above := AncestorAt(RefsOf(users), owner, k), AncestorAt(RefsOf(users), owner, k + 1);
    below.Some? && above.Some? ==> RateAt(users, below.value, house) <= RateAt(users, above.value, house)
  }

  lemma {:induction false} DropsVanish(users: seq<User>, owner: string, house: string, n: nat)
    ensures Drops(users, owner, house, n) >= 0.0
    ensures Drops(users, owner, house, n) == 0.0 <==> RatesRise(users, owner, house, n)
  {
    if n > 0 {
      DropsVanish(users, owner, house, n - 1);
      assert RatesRise(users, owner, house, n) <==>
             RatesRise(users, owner, house, n - 1)
                 && (AncestorAt(RefsOf(users), owner, n).Some? ==> StepRises(users, owner, house, n - 1));
      if AncestorAt(RefsOf(users), owner, n).Some? {
        ChainIsUnbroken(RefsOf(users), owner, n - 1);
      }
    }
  }

  lemma {:induction false} ChainCoversEveryRate(users: seq<User>, owner: string, house: string, n: nat, k: nat)
    requires k <= n && AncestorAt(RefsOf(users), owner, k).Some?
    ensures RateAt(users, AncestorAt(RefsOf(users), owner, k).value, house) <= ChainRate(users, owner, house, n)
  {
    if k == n {
      ChainTelescopes(users, owner, house, n);
      DropsVanish(users, owner, house, n);
    } else {
      ChainCoversEveryRate(users, owner, house, n - 1, k);
    }
  }

  // ----- From users to the chain: exchanging the two sums -----

  /** The share of user `v` if `v` is the `k`-th user above the owner. */
  function Term(users: seq<User>, owner: string, house: string, v: string, k: nat): real {
    if AncestorAt(RefsOf(users), owner, k) == Some(v) then StepRate(users, owner, house, k) else 0.0
  }

  function TermsOf(users: seq<User>, owner: string, house: string, v: string, n: nat): real {
    Term(users, owner, house, v, n) + if n == 0 then 0.0 else TermsOf(users, owner, house, v, n - 1)
  }

  function TermsAt(users: seq<User>, owner: string, house: string, m: nat, k: nat): real
    requires m <= |users|
  {
    if m == 0 then 0.0 else TermsAt(users, owner, house, m - 1, k) + Term(users, owner, house, users[m - 1].id, k)
  }

  function SumOfTerms(users: seq<User>, owner: string, house: string, m: nat, n: nat): real
    requires m <= |users|
  {
    if m == 0 then 0.0 else SumOfTerms(users, owner, house, m - 1, n) + TermsOf(users, owner, house, users[m - 1].id, n)
  }

  lemma {:induction false} SumsExchange(users: seq<User>, owner: string, house: string, m: nat, n: nat)
    requires m <= |users|
    ensures SumOfTerms(users, owner, house, m, n) ==
            TermsAt(users, owner, house, m, n) + if n == 0 then 0.0 else SumOfTerms(users, owner, house, m, n - 1)
  {
    if m > 0 {
      SumsExchange(users, owner, house, m - 1, n);
    }
  }

  lemma {:induction false} TermsOfAbsent(users: seq<User>, owner: string, house: string, m: nat, k: nat)
    requires m <= |users| && forall i | 0 <= i < m :: AncestorAt(RefsOf(users), owner, k) != Some(users[i].id)
    ensures TermsAt(users, owner, house, m, k) == 0.0
  {
    if m > 0 {
      TermsOfAbsent(users, owner, house, m - 1, k);
    }
  }

  lemma {:induction false} TermsOfPresent(users: seq<User>, owner: string, house: string, m: nat, k: nat, at: nat)
    requires DistinctIds(users) && at < m <= |users| && AncestorAt(RefsOf(users), owner, k) == Some(users[at].id)
    ensures TermsAt(users, owner, house, m, k) == StepRate(users, owner, house, k)
  {
    if at == m - 1 {
      TermsOfAbsent(users, owner, house, at, k);
    } else {
      TermsOfPresent(users, owner, house, m - 1, k, at);
    }
  }

  lemma {:induction false} UnknownHasNoLinks(users: seq<User>, id: string)
    requires forall i | 0 <= i < |users| :: users[i].id != id
    ensures LinksOf(users, id) == []
  {
    if users != [] {
      UnknownHasNoLinks(users[1..], id);
    }
  }

  /** Each user of the chain is counted once; one who is not in the table has no rate. */
  lemma TermsAreTheStep(users: seq<User>, owner: User, ml: NetLink, k: nat)
    requires DistinctIds(users) && Tariff(users, owner, ml)
    ensures TermsAt(users, owner.id, ml.house, |users|, k) == StepRate(users, owner.id, ml.house, k)
  {
    var refs := RefsOf(users);
    if at :| 0 <= at < |users| && AncestorAt(refs, owner.id, k) == Some(users[at].id) {
      TermsOfPresent(users, owner.id, ml.house, |users|, k, at);
    } else {
      TermsOfAbsent(users, owner.id, ml.house, |users|, k);
      if AncestorAt(refs, owner.id, k).Some? {
        UnknownHasNoLinks(users, AncestorAt(refs, owner.id, k).value);
        if k > 0 {
          ChainIsUnbroken(refs, owner.id, k - 1);
          OneRateOf(users, owner, ml, AncestorAt(refs, owner.id, k - 1).value);
        }
      }
    }
  }

  lemma {:induction false} TermsAreTheChain(users: seq<User>, owner: User, ml: NetLink, n: nat)
    requires DistinctIds(users) && Tariff(users, owner, ml)
    ensures SumOfTerms(users, owner.id, ml.house, |users|, n) == ChainRate(users, owner.id, ml.house, n)
  {
    SumsExchange(users, owner.id, ml.house, |users|, n);
    TermsAreTheStep(users, owner, ml, n);
    if n > 0 {
      TermsAreTheChain(users, owner, ml, n - 1);
    }
  }

  // ----- Shares are terms -----

  lemma {:induction false} NoTerm(users: seq<User>, owner: string, house: string, v: string, n: nat)
    requires forall k: nat | k <= n :: AncestorAt(RefsOf(users), owner, k) != Some(v)
    ensures TermsOf(users, owner, house, v, n) == 0.0
  {
    if n > 0 {
      NoTerm(users, owner, house, v, n - 1);
    }
  }

  lemma {:induction false} OneTerm(users: seq<User>, owner: string, house: string, v: string, n: nat, d: nat)
    requires d <= n && forall k: nat | k <= n :: AncestorAt(RefsOf(users), owner, k) == Some(v) <==> k == d
    ensures TermsOf(users, owner, house, v, n) == StepRate(users, owner, house, d)
  {
    if n == d {
      if n > 0 {
        NoTerm(users, owner, house, v, n - 1);
      }
    } else {
      OneTerm(users, owner, house, v, n - 1, d);
    }
  }

  /** Without cycles a user meets another at one distance only, zero included. */
  lemma OneDistance(refs: Refs, u: string, v: string, j: nat, k: nat)
    requires Acyclic(refs) && AncestorAt(refs, u, j) == Some(v) && AncestorAt(refs, u, k) == Some(v)
    ensures j == k
  {
    if j > 0 {
      DistanceIsUnique(refs, u, v, j);
    }
    if k > 0 {
      DistanceIsUnique(refs, u, v, k);
    }
  }

  lemma ShareIsTerms(users: seq<User>, owner: User, house: string, v: string)
    requires Acyclic(RefsOf(users))
    ensures ShareRate(users, owner, house, v) == TermsOf(users, owner.id, house, v, NETWORK_LEVEL_CAP)
  {
    var refs := RefsOf(users);
    DepthIsFirstMeeting(refs, owner.id, v, NETWORK_LEVEL_CAP);
    if v == owner.id || IsMet(refs, v, owner.id) {
      var d := if v == owner.id then 0 else Depth(refs, owner.id, v, NETWORK_LEVEL_CAP).value;
      assert AncestorAt(refs, owner.id, d) == Some(v);
      forall k: nat | k <= NETWORK_LEVEL_CAP
        ensures AncestorAt(refs, owner.id, k) == Some(v) <==> k == d
      {
        if AncestorAt(refs, owner.id, k) == Some(v) {
          OneDistance(refs, owner.id, v, k, d);
        }
      }
      OneTerm(users, owner.id, house, v, NETWORK_LEVEL_CAP, d);
      if d > 0 {
        AnchorIsDepthOne(refs, owner.id, v, NETWORK_LEVEL_CAP);
      }
    } else {
      forall k: nat | k <= NETWORK_LEVEL_CAP
        ensures AncestorAt(refs, owner.id, k) != Some(v)
      {
        assert k == 0 ==> AncestorAt(refs, owner.id, 0) == Some(owner.id);
      }
      NoTerm(users, owner.id, house, v, NETWORK_LEVEL_CAP);
    }
  }

  // ----- The result -----

  function Sum(amounts: seq<real>): real {
    if amounts == [] then 0.0 else Sum(amounts[..|amounts| - 1]) + amounts[|amounts| - 1]
  }

  lemma UserPaysTerms(w: World, v: User, owner: User, ml: NetLink)
    requires Setting(w, owner, ml) && v in w.users
    ensures PaidTo(w, v, ml.campaign) ==
        CpaAmount(TermsOf(w.users, owner.id, ml.house, v.id, NETWORK_LEVEL_CAP), CountOf(w, ml))
  {
    UserIsPaid(w, v, owner, ml);
    ShareIsTerms(w.users, owner, ml.house, v.id);
  }

  lemma {:induction false} SumIsTerms(users: seq<User>, owner: string, house: string, paid: seq<real>, cap: nat,
                                      count: int)
    requires |paid| <= |users|
    requires forall i | 0 <= i < |paid| :: paid[i] == CpaAmount(TermsOf(users, owner, house, users[i].id, cap), count)
    ensures Sum(paid) == CpaAmount(SumOfTerms(users, owner, house, |paid|, cap), count)
  {
    if paid != [] {
      var m := |paid| - 1;
      SumIsTerms(users, owner, house, paid[..m], cap, count);
      CpaAmountAdds(SumOfTerms(users, owner, house, m, cap), TermsOf(users, owner, house, users[m].id, cap), count);
    }
  }

  /** The rate at which a whole chain of `n` hops is paid, and how it compares with the rates on it. */
  ghost predicate ChainPays(users: seq<User>, owner: string, house: string, n: nat, rate: real) {
    var refs := RefsOf(users);
    var lost := Drops(users, owner, house, n);
    && rate == RateAt(users, Top(refs, owner, n), house) + lost
    && lost >= 0.0
    && (lost == 0.0 <==> RatesRise(users, owner, house, n))
    && forall k: nat | k <= n && AncestorAt(refs, owner, k).Some? ::
        RateAt(users, AncestorAt(refs, owner, k).value, house) <= rate
  }

  lemma ChainIsPaid(users: seq<User>, owner: string, house: string, n: nat)
    ensures ChainPays(users, owner, house, n, ChainRate(users, owner, house, n))
  {
    ChainTelescopes(users, owner, house, n);
    DropsVanish(users, owner, house, n);
    forall k: nat | k <= n && AncestorAt(RefsOf(users), owner, k).Some?
      ensures RateAt(users, AncestorAt(RefsOf(users), owner, k).value, house) <= ChainRate(users, owner, house, n)
    {
      ChainCoversEveryRate(users, owner, house, n, k);
    }
  }

  lemma PaidAtChainRate(users: seq<User>, owner: User, ml: NetLink, paid: seq<real>, cap: nat, count: int)
    requires DistinctIds(users) && Tariff(users, owner, ml) && |paid| == |users|
    requires forall i | 0 <= i < |paid| ::
        paid[i] == CpaAmount(TermsOf(users, owner.id, ml.house, users[i].id, cap), count)
    ensures Sum(paid) == CpaAmount(ChainRate(users, owner.id, ml.house, cap), count)
  {
    SumIsTerms(users, owner.id, ml.house, paid, cap, count);
    TermsAreTheChain(users, owner, ml, cap);
  }

  /** What each user is paid for campaign `c`, in table order. */
  ghost predicate ArePaid(w: World, c: string, paid: seq<real>) {
    |paid| == |w.users| && forall i {:trigger paid[i]} | 0 <= i < |paid| :: paid[i] == PaidTo(w, w.users[i], c)
  }

  /**
   All users together are paid the campaign's CPAs at the rate of the highest ancestor within the cap, plus
   whatever rates fall on the way up.  Nothing falls exactly when rates never fall towards the root, and in
   any case the rate paid covers every rate on the path.
   */
  lemma CommissionTelescopes(w: World, owner: User, ml: NetLink, paid: seq<real>) returns (rate: real)
    requires Setting(w, owner, ml)
    requires ArePaid(w, ml.campaign, paid)
    ensures ChainPays(w.users, owner.id, ml.house, NETWORK_LEVEL_CAP, rate)
    ensures Sum(paid) == CpaAmount(rate, CountOf(w, ml))
  {
    forall i | 0 <= i < |paid|
      ensures paid[i] == CpaAmount(TermsOf(w.users, owner.id, ml.house, w.users[i].id, NETWORK_LEVEL_CAP),
                                   CountOf(w, ml))
    {
      UserPaysTerms(w, w.users[i], owner, ml);
    }
    PaidAtChainRate(w.users, owner, ml, paid, NETWORK_LEVEL_CAP, CountOf(w, ml));
    ChainIsPaid(w.users, owner.id, ml.house, NETWORK_LEVEL_CAP);
    rate := ChainRate(w.users, owner.id, ml.house, NETWORK_LEVEL_CAP);
  }
}
