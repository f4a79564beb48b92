/**
 The two searches that collect a head's network: the one behind the balance and the one behind the fraud
 view.  Every member carries the rates of an "anchor", the direct referral through which they came in.
 Neither search hides deleted users, and neither marks the head as seen.
 */
module NetworkMembers {
  import opened Basics
  import opened Referral

  datatype NetLink = NetLink(campaign: string, house: string, cpa: Option<real>, revshare: Option<real>,
                             linkType: Option<string>)

  datatype Fraud = Fraud(house: string, count: int)

  /** A user with the links that are not soft-deleted. */
  datatype User = User(id: string, referredBy: Option<string>, isExternal: bool, links: seq<NetLink>,
                       frauds: seq<Fraud>)

  /** Rates of a direct referral by rate key; only positive rates are recorded. */
  datatype Rates = Rates(cpa: map<string, real>, rev: map<string, real>)

  datatype Member = Member(user: User, level: nat, anchor: Rates)

  ghost predicate DistinctIds(users: seq<User>) {
    forall i, j | 0 <= i < j < |users| :: users[i].id != users[j].id
  }

  function RefsOf(users: seq<User>): Refs {
    if users == [] then map[]
    else
      var refs := RefsOf(users[1..]);
      if users[0].referredBy.Some? then refs[users[0].id := users[0].referredBy.value] else refs
  }

  // ----- Rate keys -----

  predicate IsPinbet(house: string) {
    house == "pinbet-diario" || house == "pinbet-mensal"
  }

  /** The dimension suffix of a Pinbet link comes from a helper that stays a parameter here. */
  type DimensionOf = NetLink -> string

  /** The key under which a link's rates are compared: the house, split by dimension for Pinbet. */
  function RateKey(l: NetLink, dimension: DimensionOf): string {
    if IsPinbet(l.house) then l.house + "::" + dimension(l) else l.house
  }

  /** A Pinbet key names no house without Pinbet. */
  lemma PinbetKeysAreApart(l: NetLink, dimension: DimensionOf, house: string)
    requires !IsPinbet(house) && ':' !in house
    ensures RateKey(l, dimension) == house <==> l.house == house
  {
    if IsPinbet(l.house) {
      assert RateKey(l, dimension)[|l.house|] == ':';
    }
  }

  function Positive(rate: Option<real>): bool {
    rate.Some? && rate.value > 0.0
  }

  /** The anchor rates of a direct referral: a later link overwrites an earlier one of the same key. */
  function RatesOf(links: seq<NetLink>, dimension: DimensionOf): Rates {
    if links == [] then Rates(map[], map[])
    else
      var l := links[|links| - 1];
      var r := RatesOf(links[..|links| - 1], dimension);
      var key := RateKey(l, dimension);
      Rates(if Positive(l.cpa) then r.cpa[key := l.cpa.value] else r.cpa,
            if Positive(l.revshare) then r.rev[key := l.revshare.value] else r.rev)
  }

  /** The fraud view's anchor: keyed by house, without dimensions. */
  function HouseCpaOf(links: seq<NetLink>): map<string, real> {
    if links == [] then map[]
    else
      var l := links[|links| - 1];
      var r := HouseCpaOf(links[..|links| - 1]);
      if Positive(l.cpa) then r[l.house := l.cpa.value] else r
  }

  lemma {:induction false} AnchorsAgreeOutsidePinbet(links: seq<NetLink>, dimension: DimensionOf, house: string)
    requires !IsPinbet(house) && ':' !in house
    ensures house in HouseCpaOf(links) <==> house in RatesOf(links, dimension).cpa
    ensures house in HouseCpaOf(links) ==> HouseCpaOf(links)[house] == RatesOf(links, dimension).cpa[house]
  {
    if links != [] {
      AnchorsAgreeOutsidePinbet(links[..|links| - 1], dimension, house);
      PinbetKeysAreApart(links[|links| - 1], dimension, house);
    }
  }

  /** The link's rates go under this key: its house, for Pinbet followed by the dimension. */
  predicate GoesUnder(l: NetLink, dimension: DimensionOf, key: string) {
    key == if l.house in {"pinbet-diario", "pinbet-mensal"} then l.house + "::" + dimension(l) else l.house
  }

  /** Link `i` is the last one under the key with a positive CPA rate. */
  predicate IsLastCpa(links: seq<NetLink>, dimension: DimensionOf, key: string, i: nat) {
    && i < |links| && GoesUnder(links[i], dimension, key) && links[i].cpa.Some? && links[i].cpa.value > 0.0
    && forall j | i < j < |links| && GoesUnder(links[j], dimension, key) && links[j].cpa.Some? ::
        links[j].cpa.value <= 0.0
  }

  predicate IsLastRev(links: seq<NetLink>, dimension: DimensionOf, key: string, i: nat) {
    && i < |links| && GoesUnder(links[i], dimension, key) && links[i].revshare.Some? && links[i].revshare.value > 0.0
    && forall j | i < j < |links| && GoesUnder(links[j], dimension, key) && links[j].revshare.Some? ::
        links[j].revshare.value <= 0.0
  }

  /** An anchor's CPA rates are those of the last link under each key that has a positive one. */
  lemma {:induction false} CpaRatesMean(links: seq<NetLink>, dimension: DimensionOf, key: string)
    ensures var rates := RatesOf(links, dimension).cpa;
            && (key in rates ==> exists i: nat ::
                IsLastCpa(links, dimension, key, i) && rates[key] == links[i].cpa.value)
            && (forall i: nat :: IsLastCpa(links, dimension, key, i) ==> key in rates)
  {
    if links != [] {
      var n := |links| - 1;
      CpaRatesMean(links[..n], dimension, key);
      forall i: nat
        ensures i < n && IsLastCpa(links, dimension, key, i) ==> IsLastCpa(links[..n], dimension, key, i)
      {
      }
      if key in RatesOf(links, dimension).cpa && !IsLastCpa(links, dimension, key, n) {
        var i: nat :| IsLastCpa(links[..n], dimension, key, i)
            && RatesOf(links[..n], dimension).cpa[key] == links[..n][i].cpa.value;
        assert IsLastCpa(links, dimension, key, i);
      }
    }
  }

  /** The same for revenue shares, apart from CPA rates. */
  lemma {:induction false} RevRatesMean(links: seq<NetLink>, dimension: DimensionOf, key: string)
    ensures var rates := RatesOf(links, dimension).rev;
            && (key in rates ==> exists i: nat ::
                IsLastRev(links, dimension, key, i) && rates[key] == links[i].revshare.value)
            && (forall i: nat :: IsLastRev(links, dimension, key, i) ==> key in rates)
  {
    if links != [] {
      var n := |links| - 1;
      RevRatesMean(links[..n], dimension, key);
      forall i: nat
        ensures i < n && IsLastRev(links, dimension, key, i) ==> IsLastRev(links[..n], dimension, key, i)
      {
      }
      if key in RatesOf(links, dimension).rev && !IsLastRev(links, dimension, key, n) {
        var i: nat :| IsLastRev(links[..n], dimension, key, i)
            && RatesOf(links[..n], dimension).rev[key] == links[..n][i].revshare.value;
        assert IsLastRev(links, dimension, key, i);
      }
    }
  }

  // ----- What the searches find -----

  function LinksOf(users: seq<User>, id: string): seq<NetLink> {
    if users == [] then [] else if users[0].id == id then users[0].links else LinksOf(users[1..], id)
  }

  lemma {:induction false} TableMeans(users: seq<User>, u: User)
    requires DistinctIds(users) && u in users
    ensures u.id in RefsOf(users) <==> u.referredBy.Some?
    ensures u.referredBy.Some? ==> RefsOf(users)[u.id] == u.referredBy.value
    ensures LinksOf(users, u.id) == u.links
  {
    if u != users[0] {
      TableMeans(users[1..], u);
    } else {
      NotReferredElsewhere(users[1..], u.id);
    }
  }

  lemma LinksKnown(users: seq<User>, u: User)
    requires DistinctIds(users) && u in users
    ensures LinksOf(users, u.id) == u.links
  {
    TableMeans(users, u);
  }

  lemma {:induction false} NotReferredElsewhere(users: seq<User>, id: string)
    requires forall i | 0 <= i < |users| :: users[i].id != id
    ensures id !in RefsOf(users)
  {
    if users != [] {
      NotReferredElsewhere(users[1..], id);
    }
  }

  lemma {:induction false} ReferredIsInTable(users: seq<User>, id: string) returns (u: User)
    requires id in RefsOf(users)
    ensures u in users && u.id == id
  {
    if users[0].id == id {
      u := users[0];
    } else {
      u := ReferredIsInTable(users[1..], id);
    }
  }

  /** `referredById in parents`, in table order. */
  function QueryReferred(users: seq<User>, parents: set<string>): seq<User> {
    if users == [] then []
    else
      (if users[0].referredBy.Some? && users[0].referredBy.value in parents then [users[0]] else [])
      + QueryReferred(users[1..], parents)
  }

  lemma {:induction false} QueryReferredMeans(users: seq<User>, parents: set<string>, u: User)
    ensures u in QueryReferred(users, parents) <==> u in users && u.referredBy.Some? && u.referredBy.value in parents
  {
    if users != [] {
      QueryReferredMeans(users[1..], parents, u);
    }
  }

  function Ids(rows: seq<User>): set<string> {
    set u | u in rows :: u.id
  }

  lemma IdsGrow(rows: seq<User>, i: nat)
    requires i < |rows|
    ensures Ids(rows[..i + 1]) == Ids(rows[..i]) + {rows[i].id}
  {
  }

  lemma QueryIds(users: seq<User>, parents: set<string>)
    requires DistinctIds(users)
    ensures Ids(QueryReferred(users, parents)) == ChildrenOf(RefsOf(users), parents)
    ensures forall u | u in QueryReferred(users, parents) ::
              u in users && u.id in RefsOf(users) && u.referredBy == Some(RefsOf(users)[u.id])
                  && u.referredBy.value in parents
  {
    forall u
      ensures u in QueryReferred(users, parents) <==> u in users && u.referredBy.Some? && u.referredBy.value in parents
    {
      QueryReferredMeans(users, parents, u);
    }
    forall u | u in users
      ensures u.id in RefsOf(users) <==> u.referredBy.Some?
      ensures u.referredBy.Some? ==> RefsOf(users)[u.id] == u.referredBy.value
    {
      TableMeans(users, u);
    }
    forall id | id in ChildrenOf(RefsOf(users), parents)
      ensures id in Ids(QueryReferred(users, parents))
    {
      var u := ReferredIsInTable(users, id);
      assert u in QueryReferred(users, parents);
    }
  }

  /** Rows whose referrer is on the layer. */
  ghost predicate RowsBelow(refs: Refs, layer: seq<string>, rows: seq<User>) {
    forall m | m in rows :: m.id in refs && m.referredBy == Some(refs[m.id]) && m.referredBy.value in layer
  }

  lemma QueryRows(users: seq<User>, layer: seq<string>)
    requires DistinctIds(users)
    ensures var rows := QueryReferred(users, ToSet(layer));
            RowsBelow(RefsOf(users), layer, rows) && Ids(rows) == ChildrenOf(RefsOf(users), ToSet(layer))
  {
    QueryIds(users, ToSet(layer));
  }

  /** Everyone met down to layer `n`, with level and anchor; `seen` are further users of layer n + 1. */
  ghost predicate Met(refs: Refs, head: string, n: nat, seen: set<string>, level: map<string, nat>,
                      anchor: map<string, string>) {
    && level.Keys == anchor.Keys
    && (forall u {:trigger u in level} :: u in level <==> Depth(refs, u, head, n).Some? || u in seen)
    && (forall u | u in level ::
          if Depth(refs, u, head, n).Some?
          then level[u] == Depth(refs, u, head, n).value && anchor[u] == Anchor(refs, u, head, n)
          else u in refs && level[u] == n + 1 && anchor[u] == Anchor(refs, refs[u], head, n))
  }

  ghost predicate LayerIs(refs: Refs, head: string, n: nat, layer: seq<string>) {
    forall u :: u in layer <==> Depth(refs, u, head, n) == Some(n)
  }

  lemma FirstLayer(refs: Refs, head: string)
    ensures forall u :: Depth(refs, u, head, 1).Some? <==> u in ChildrenOf(refs, {head})
    ensures forall u | u in ChildrenOf(refs, {head}) ::
        Depth(refs, u, head, 1) == Some(1) && Anchor(refs, u, head, 1) == u
  {
  }

  lemma FirstLayerMet(refs: Refs, head: string, level: map<string, nat>, anchor: map<string, string>,
                      frontier: seq<string>)
    requires level.Keys == anchor.Keys == ChildrenOf(refs, {head})
    requires forall u :: u in frontier <==> u in level
    requires forall u | u in level :: level[u] == 1 && anchor[u] == u
    ensures Met(refs, head, 1, {}, level, anchor) && LayerIs(refs, head, 1, frontier)
  {
    FirstLayer(refs, head);
  }

  /** After all rows of a layer the search is one layer further. */
  lemma LayerDone(refs: Refs, head: string, n: nat, layer: seq<string>, next: seq<string>,
                  level: map<string, nat>, anchor: map<string, string>)
    requires n >= 1 && LayerIs(refs, head, n, layer)
    requires Met(refs, head, n, ChildrenOf(refs, ToSet(layer)), level, anchor)
    requires forall u :: u in next <==> u in ChildrenOf(refs, ToSet(layer)) && Depth(refs, u, head, n).None?
    ensures Met(refs, head, n + 1, {}, level, anchor) && LayerIs(refs, head, n + 1, next)
  {
    forall u
      ensures u in next <==> Depth(refs, u, head, n + 1) == Some(n + 1)
      ensures u in level <==> Depth(refs, u, head, n + 1).Some?
      ensures u in level ==> level[u] == Depth(refs, u, head, n + 1).value && anchor[u] == Anchor(refs, u, head, n + 1)
    {
      DepthRound(refs, u, head, n);
      DepthStable(refs, u, head, n);
    }
  }

  /** Below an empty layer there is an empty layer, and nobody is met. */
  lemma NobodyBelow(refs: Refs, head: string, n: nat, level: map<string, nat>, anchor: map<string, string>)
    requires n >= 1 && LayerIs(refs, head, n, []) && Met(refs, head, n, {}, level, anchor)
    ensures LayerIs(refs, head, n + 1, []) && Met(refs, head, n + 1, {}, level, anchor)
  {
    assert ChildrenOf(refs, ToSet([])) == {};
    LayerDone(refs, head, n, [], [], level, anchor);
  }

  /** An empty layer is the end: no deeper search meets anyone else. */
  lemma {:induction false} SearchEnds(refs: Refs, head: string, m: nat, n: nat, level: map<string, nat>,
                                      anchor: map<string, string>)
    requires 1 <= m <= n && LayerIs(refs, head, m, []) && Met(refs, head, m, {}, level, anchor)
    ensures Met(refs, head, n, {}, level, anchor)
    decreases n - m
  {
    if m < n {
      NobodyBelow(refs, head, m, level, anchor);
      SearchEnds(refs, head, m + 1, n, level, anchor);
    }
  }

  // ----- The search below the direct referrals, the same in both views -----

  /** Everyone met shares the entry of their anchor. */
  ghost predicate Shared<A>(anchor: map<string, string>, memberL1: map<string, A>, first: map<string, A>) {
    && memberL1.Keys == anchor.Keys
    && (forall u | u in anchor :: anchor[u] in first && memberL1[u] == first[anchor[u]])
  }

  /** The state of a round after the rows of the users in `seen`. */
  ghost predicate RoundState(refs: Refs, head: string, n: nat, layer: seq<string>, seen: set<string>,
                             level: map<string, nat>, anchor: map<string, string>, next: seq<string>) {
    && seen <= ChildrenOf(refs, ToSet(layer))
    && Met(refs, head, n, seen, level, anchor)
    && (forall u :: u in next <==> u in seen && Depth(refs, u, head, n).None?)
  }

  /** A row of layer n + 1 is met already, or is met now through its referrer. */
  lemma MeetRow(refs: Refs, head: string, n: nat, layer: seq<string>, seen: set<string>, u: string,
                level: map<string, nat>, anchor: map<string, string>, next: seq<string>)
    requires n >= 1 && LayerIs(refs, head, n, layer) && RoundState(refs, head, n, layer, seen, level, anchor, next)
    requires u in refs && refs[u] in layer
    ensures refs[u] in level
    ensures u in level ==> RoundState(refs, head, n, layer, seen + {u}, level, anchor, next)
    ensures u !in level ==>
              RoundState(refs, head, n, layer, seen + {u}, level[u := n + 1], anchor[u := anchor[refs[u]]], next + [u])
  {
    assert Depth(refs, refs[u], head, n) == Some(n);
    assert refs[u] in level && anchor[refs[u]] == Anchor(refs, refs[u], head, n);
    assert refs[u] in ToSet(layer);
    if u in level && Depth(refs, u, head, n).Some? {
      assert forall v | v in level :: v in seen + {u} ==> v in seen || v == u;
    }
  }

  lemma SharedWithReferrer<A>(anchor: map<string, string>, memberL1: map<string, A>, first: map<string, A>, u: string,
                              parent: string)
    requires Shared(anchor, memberL1, first) && parent in anchor
    ensures Shared(anchor[u := anchor[parent]], memberL1[u := memberL1[parent]], first)
  {
  }

  lemma RoundEnds(refs: Refs, head: string, n: nat, layer: seq<string>, seen: set<string>,
                  level: map<string, nat>, anchor: map<string, string>, next: seq<string>)
    requires n >= 1 && LayerIs(refs, head, n, layer) && RoundState(refs, head, n, layer, seen, level, anchor, next)
    requires seen == ChildrenOf(refs, ToSet(layer))
    ensures Met(refs, head, n + 1, {}, level, anchor) && LayerIs(refs, head, n + 1, next)
  {
    LayerDone(refs, head, n, layer, next, level, anchor);
  }

  /** The rows of one query, in table order: whoever is new takes over the referrer's entry. */
  method CollectRows<A>(ghost refs: Refs, head: string, lvl: nat, rows: seq<User>, ghost layer: seq<string>,
                        level0: map<string, nat>, memberL10: map<string, A>, ghost anchor0: map<string, string>,
                            ghost first: map<string, A>)
    returns (level: map<string, nat>, memberL1: map<string, A>, nextIds: seq<string>, ghost anchor: map<string, string>)
    requires lvl >= 2 && LayerIs(refs, head, lvl - 1, layer) && RowsBelow(refs, layer, rows)
    requires RoundState(refs, head, lvl - 1, layer, {}, level0, anchor0, []) && Shared(anchor0, memberL10, first)
    ensures RoundState(refs, head, lvl - 1, layer, Ids(rows), level, anchor, nextIds) && Shared(anchor, memberL1, first)
  {
    level, memberL1, nextIds, anchor := level0, memberL10, [], anchor0;
    ghost var seen: set<string> := {};
    assert Ids(rows[..0]) == {};
    for i := 0 to |rows|
      invariant seen == Ids(rows[..i])
      invariant RoundState(refs, head, lvl - 1, layer, seen, level, anchor, nextIds) && Shared(anchor, memberL1, first)
    {
      var m := rows[i];
      IdsGrow(rows, i);
      MeetRow(refs, head, lvl - 1, layer, seen, m.id, level, anchor, nextIds);
      if m.id !in memberL1 && m.referredBy.value in memberL1 {
        SharedWithReferrer(anchor, memberL1, first, m.id, m.referredBy.value);
        memberL1, anchor := memberL1[m.id := memberL1[m.referredBy.value]], anchor[m.id := anchor[m.referredBy.value]];
        level, nextIds := level[m.id := lvl], nextIds + [m.id];
      }
      seen := seen + {m.id};
    }
    assert rows[..|rows|] == rows;
  }

  /** The search has met everyone down to layer `n`, whose users are the frontier. */
  ghost predicate Searching<A>(refs: Refs, head: string, n: nat, level: map<string, nat>, memberL1: map<string, A>,
                               first: map<string, A>, frontier: seq<string>) {
    exists anchor ::
      Met(refs, head, n, {}, level, anchor) && LayerIs(refs, head, n, frontier) && Shared(anchor, memberL1, first)
  }

  /** One level: query the referrals of the frontier and meet those that are new. */
  method SearchLevel<A>(users: seq<User>, head: string, lvl: nat, frontier: seq<string>, level0: map<string, nat>,
                        memberL10: map<string, A>, ghost first: map<string, A>)
    returns (level: map<string, nat>, memberL1: map<string, A>, nextIds: seq<string>)
    requires DistinctIds(users) && lvl >= 2
    requires Searching(RefsOf(users), head, lvl - 1, level0, memberL10, first, frontier)
    ensures Searching(RefsOf(users), head, lvl, level, memberL1, first, nextIds)
  {
    ghost var refs := RefsOf(users);
    ghost var anchor :| Met(refs, head, lvl - 1, {}, level0, anchor) && LayerIs(refs, head, lvl - 1, frontier)
        && Shared(anchor, memberL10, first);
    var nextLevel := QueryReferred(users, ToSet(frontier));
    QueryRows(users, frontier);
    level, memberL1, nextIds,
        anchor := CollectRows(refs, head, lvl, nextLevel, frontier, level0, memberL10, anchor, first);
    RoundEnds(refs, head, lvl - 1, frontier, Ids(nextLevel), level, anchor, nextIds);
  }

  predicate IsMet(refs: Refs, head: string, id: string) {
    Depth(refs, id, head, NETWORK_LEVEL_CAP).Some?
  }

  /** The outcome of a search: who was met, how far down, and whose entry they carry. */
  ghost predicate Found<A>(refs: Refs, head: string, level: map<string, nat>, memberL1: map<string, A>,
                           first: map<string, A>) {
    && (forall u :: u in memberL1 <==> IsMet(refs, head, u))
    && (forall u | u in memberL1 ::
          && u in level && level[u] == Depth(refs, u, head, NETWORK_LEVEL_CAP).value
          && Anchor(refs, u, head, NETWORK_LEVEL_CAP) in first
          && memberL1[u] == first[Anchor(refs, u, head, NETWORK_LEVEL_CAP)])
  }

  lemma EveryoneFound<A>(refs: Refs, head: string, n: nat, level: map<string, nat>, memberL1: map<string, A>,
                         first: map<string, A>, frontier: seq<string>)
    requires Searching(refs, head, n, level, memberL1, first, frontier)
    requires n == NETWORK_LEVEL_CAP || (1 <= n < NETWORK_LEVEL_CAP && frontier == [])
    ensures Found(refs, head, level, memberL1, first)
  {
    var anchor :| Met(refs, head, n, {}, level, anchor) && LayerIs(refs, head, n, frontier)
        && Shared(anchor, memberL1, first);
    if n < NETWORK_LEVEL_CAP {
      SearchEnds(refs, head, n, NETWORK_LEVEL_CAP, level, anchor);
    }
    forall u
      ensures u in memberL1 <==> IsMet(refs, head, u)
    {
      assert u in level <==> u in memberL1;
    }
  }

  /** Direct referrals entered so far. */
  ghost predicate Entered<A>(ids: set<string>, level: map<string, nat>, memberL1: map<string, A>,
                             frontier: seq<string>) {
    && level.Keys == memberL1.Keys == ids
    && (forall u :: u in frontier <==> u in memberL1)
    && (forall u | u in level :: level[u] == 1)
  }

  lemma EnterNext<A>(rows: seq<User>, i: nat, level: map<string, nat>, memberL1: map<string, A>,
                     frontier: seq<string>, entry: A)
    requires i < |rows| && Entered(Ids(rows[..i]), level, memberL1, frontier)
    ensures Entered(Ids(rows[..i + 1]), level[rows[i].id := 1], memberL1[rows[i].id := entry], frontier + [rows[i].id])
  {
    IdsGrow(rows, i);
  }

  lemma SearchBegins<A>(refs: Refs, head: string, level: map<string, nat>, first: map<string, A>, frontier: seq<string>)
    requires Entered(ChildrenOf(refs, {head}), level, first, frontier)
    ensures Searching(refs, head, 1, level, first, first, frontier)
  {
    var anchor := map u | u in first :: u;
    FirstLayerMet(refs, head, level, anchor, frontier);
    assert Shared(anchor, first, first);
  }

  /** Levels 2 to the cap, or until a level adds nobody. */
  method SearchDown<A>(users: seq<User>, head: string, level0: map<string, nat>, first: map<string, A>,
                       frontier0: seq<string>)
    returns (level: map<string, nat>, memberL1: map<string, A>)
    requires DistinctIds(users) && Entered(ChildrenOf(RefsOf(users), {head}), level0, first, frontier0)
    ensures Found(RefsOf(users), head, level, memberL1, first)
  {
    level, memberL1 := level0, first;
    var frontier := frontier0;
    SearchBegins(RefsOf(users), head, level, first, frontier);
    var lvl := 2;
    while lvl <= NETWORK_LEVEL_CAP && |frontier| > 0
      invariant 2 <= lvl <= NETWORK_LEVEL_CAP + 1
      invariant Searching(RefsOf(users), head, lvl - 1, level, memberL1, first, frontier)
    {
      level, memberL1, frontier := SearchLevel(users, head, lvl, frontier, level, memberL1, first);
      lvl := lvl + 1;
    }
    EveryoneFound(RefsOf(users), head, lvl - 1, level, memberL1, first, frontier);
  }

  // ----- loadNetworkMembers -----

  function MemberOf(users: seq<User>, head: string, dimension: DimensionOf, u: User): Member
    requires IsMet(RefsOf(users), head, u.id)
  {
    var refs := RefsOf(users);
    Member(u, Depth(refs, u.id, head, NETWORK_LEVEL_CAP).value,
           RatesOf(LinksOf(users, Anchor(refs, u.id, head, NETWORK_LEVEL_CAP)), dimension))
  }

  /** The members among the first `n` users, in table order. */
  function MembersOf(users: seq<User>, head: string, dimension: DimensionOf, n: nat): seq<Member>
    requires n <= |users|
  {
    if n == 0 then []
    else
      MembersOf(users, head, dimension, n - 1)
      + if IsMet(RefsOf(users), head, users[n - 1].id) && users[n - 1].links != []
          then [MemberOf(users, head, dimension, users[n - 1])] else []
  }

  method LoadNetworkMembers(users: seq<User>, head: string, dimension: DimensionOf) returns (members: seq<Member>)
    requires DistinctIds(users)
    ensures members == MembersOf(users, head, dimension, |users|)
  {
    var level, first, frontier := DirectMembers(users, head, dimension);
    var memberL1;
    level, memberL1 := SearchDown(users, head, level, first, frontier);
    members := SelectMembers(users, head, dimension, level, memberL1, first);
  }

  /** The final query: everyone met who has a link. */
  method SelectMembers(users: seq<User>, head: string, dimension: DimensionOf, level: map<string, nat>,
                       memberL1: map<string, Rates>, ghost first: map<string, Rates>)
    returns (members: seq<Member>)
    requires Found(RefsOf(users), head, level, memberL1, first)
    requires forall u | u in first :: first[u] == RatesOf(LinksOf(users, u), dimension)
    ensures members == MembersOf(users, head, dimension, |users|)
  {
    members := [];
    for i := 0 to |users|
      invariant members == MembersOf(users, head, dimension, i)
    {
      var u := users[i];
      if u.id in memberL1 && u.links != [] {
        members := members + [Member(u, level[u.id], memberL1[u.id])];
      }
    }
  }

  method DirectMembers(users: seq<User>, head: string, dimension: DimensionOf)
    returns (level: map<string, nat>, memberL1: map<string, Rates>, frontier: seq<string>)
    requires DistinctIds(users)
    ensures Entered(ChildrenOf(RefsOf(users), {head}), level, memberL1, frontier)
    ensures forall u | u in memberL1 :: memberL1[u] == RatesOf(LinksOf(users, u), dimension)
  {
    memberL1, level, frontier := map[], map[], [];
    var level1 := QueryReferred(users, {head});
    QueryIds(users, {head});
    for i := 0 to |level1|
      invariant Entered(Ids(level1[..i]), level, memberL1, frontier)
      invariant forall u | u in memberL1 :: memberL1[u] == RatesOf(LinksOf(users, u), dimension)
    {
      var l1 := level1[i];
      LinksKnown(users, l1);
      EnterNext(level1, i, level, memberL1, frontier, RatesOf(l1.links, dimension));
      memberL1 := memberL1[l1.id := RatesOf(l1.links, dimension)];
      level, frontier := level[l1.id := 1], frontier + [l1.id];
    }
    assert level1[..|level1|] == level1;
  }

  // ----- What the members are -----

  /** Referral distance: the first `k` >= 1 at which the chain from `u` meets `head`. */
  ghost predicate AtDistance(refs: Refs, u: string, head: string, k: nat) {
    && k >= 1 && AncestorAt(refs, u, k) == Some(head)
    && forall j: nat | 1 <= j < k :: AncestorAt(refs, u, j) != Some(head)
  }

  ghost predicate InNetwork(refs: Refs, u: string, head: string) {
    exists k: nat | k <= NETWORK_LEVEL_CAP :: AtDistance(refs, u, head, k)
  }

  predicate Listed(members: seq<Member>, u: User) {
    exists i | 0 <= i < |members| :: members[i].user == u
  }

  lemma MetAtDistance(refs: Refs, u: string, head: string)
    ensures IsMet(refs, head, u) <==> InNetwork(refs, u, head)
    ensures IsMet(refs, head, u) ==> AtDistance(refs, u, head, Depth(refs, u, head, NETWORK_LEVEL_CAP).value)
  {
    DepthIsFirstMeeting(refs, u, head, NETWORK_LEVEL_CAP);
    if IsMet(refs, head, u) {
      assert AtDistance(refs, u, head, Depth(refs, u, head, NETWORK_LEVEL_CAP).value);
    } else {
      forall k: nat | k <= NETWORK_LEVEL_CAP
        ensures !AtDistance(refs, u, head, k)
      {
      }
    }
  }

  /** A member's place in the network, told from the referral chain alone. */
  ghost predicate Describes(users: seq<User>, head: string, dimension: DimensionOf, m: Member) {
    var refs := RefsOf(users);
    && m.level <= NETWORK_LEVEL_CAP && AtDistance(refs, m.user.id, head, m.level)
    && exists a :: AncestorAt(refs, m.user.id, m.level - 1) == Some(a)
        && m.anchor == RatesOf(LinksOf(users, a), dimension)
  }

  lemma {:induction false} MembersMean(users: seq<User>, head: string, dimension: DimensionOf, n: nat, m: Member)
    requires n <= |users|
    ensures m in MembersOf(users, head, dimension, n) <==>
            && m.user in users[..n] && IsMet(RefsOf(users), head, m.user.id) && m.user.links != []
            && m == MemberOf(users, head, dimension, m.user)
  {
    if n > 0 {
      MembersMean(users, head, dimension, n - 1, m);
      assert users[..n] == users[..n - 1] + [users[n - 1]];
    }
  }

  lemma MemberDescribed(users: seq<User>, head: string, dimension: DimensionOf, u: User)
    requires IsMet(RefsOf(users), head, u.id)
    ensures Describes(users, head, dimension, MemberOf(users, head, dimension, u))
  {
    MetAtDistance(RefsOf(users), u.id, head);
    AnchorIsDepthOne(RefsOf(users), u.id, head, NETWORK_LEVEL_CAP);
  }

  lemma {:induction false} MembersAppearOnce(users: seq<User>, head: string, dimension: DimensionOf, n: nat)
    requires DistinctIds(users) && n <= |users|
    ensures forall i, j | 0 <= i < j < |MembersOf(users, head, dimension, n)| ::
              MembersOf(users, head, dimension, n)[i].user.id != MembersOf(users, head, dimension, n)[j].user.id
  {
    if n > 0 {
      MembersAppearOnce(users, head, dimension, n - 1);
      var before := MembersOf(users, head, dimension, n - 1);
      forall i | 0 <= i < |before|
        ensures before[i].user.id != users[n - 1].id
      {
        MembersMean(users, head, dimension, n - 1, before[i]);
      }
    }
  }

  /**
   The network on any graph: exactly the users with a link at referral distance 1 to the cap, each once,
   at that distance, and carrying the rates of the referral one hop below the head.
   */
  lemma MembersAreTheNetwork(users: seq<User>, head: string, dimension: DimensionOf)
    requires DistinctIds(users)
    ensures var members := MembersOf(users, head, dimension, |users|);
            && (forall m | m in members :: Describes(users, head, dimension, m))
            && (forall u | u in users :: Listed(members, u) <==> u.links != [] && InNetwork(RefsOf(users), u.id, head))
            && (forall i, j | 0 <= i < j < |members| :: members[i].user.id != members[j].user.id)
  {
    var members := MembersOf(users, head, dimension, |users|);
    assert users[..|users|] == users;
    MembersAppearOnce(users, head, dimension, |users|);
    forall m | m in members
      ensures m.user in users && Describes(users, head, dimension, m) && m.user.links != []
          && IsMet(RefsOf(users), head, m.user.id)
    {
      MembersMean(users, head, dimension, |users|, m);
      MemberDescribed(users, head, dimension, m.user);
    }
    forall u | u in users
      ensures Listed(members, u) <==> u.links != [] && InNetwork(RefsOf(users), u.id, head)
    {
      MetAtDistance(RefsOf(users), u.id, head);
      if IsMet(RefsOf(users), head, u.id) && u.links != [] {
        MembersMean(users, head, dimension, |users|, MemberOf(users, head, dimension, u));
      }
    }
  }

  predicate NoLoop(refs: Refs, u: string, k: nat) {
    k >= 1 ==> AncestorAt(refs, u, k) != Some(u)
  }

  /** Nobody is their own ancestor. */
  ghost predicate Acyclic(refs: Refs) {
    forall u, k: nat :: NoLoop(refs, u, k)
  }

  lemma NotOwnAncestor(refs: Refs, u: string, k: nat)
    requires Acyclic(refs) && k >= 1
    ensures AncestorAt(refs, u, k) != Some(u)
  {
    assert NoLoop(refs, u, k);
  }

  lemma {:induction false} AncestorsCompose(refs: Refs, u: string, j: nat, k: nat)
    requires AncestorAt(refs, u, j).Some?
    ensures AncestorAt(refs, u, j + k) == AncestorAt(refs, AncestorAt(refs, u, j).value, k)
    decreases j
  {
    if j > 0 {
      AncestorsCompose(refs, refs[u], j - 1, k);
    }
  }

  /** Without cycles a user meets the head at one distance only, and the head is not a member. */
  lemma DistanceIsUnique(refs: Refs, u: string, head: string, k: nat)
    requires Acyclic(refs) && k >= 1 && AncestorAt(refs, u, k) == Some(head)
    ensures u != head && AtDistance(refs, u, head, k)
  {
    NotOwnAncestor(refs, u, k);
    forall j: nat | 1 <= j < k
      ensures AncestorAt(refs, u, j) != Some(head)
    {
      NotOwnAncestor(refs, head, k - j);
      if AncestorAt(refs, u, j) == Some(head) {
        AncestorsCompose(refs, u, j, k - j);
      }
    }
  }

  // ----- The fraud view -----

  datatype FraudMember = FraudMember(user: User, l1Cpa: map<string, real>)

  function FraudMembersOf(users: seq<User>, head: string, n: nat): seq<FraudMember>
    requires n <= |users|
  {
    if n == 0 then []
    else
      var u := users[n - 1];
      FraudMembersOf(users, head, n - 1)
      + if IsMet(RefsOf(users), head, u.id)
        then [FraudMember(u, HouseCpaOf(LinksOf(users, Anchor(RefsOf(users), u.id, head, NETWORK_LEVEL_CAP))))]
        else []
  }

  /** The same search with plain house keys; members without links stay, and levels are not used. */
  method LoadNetworkMembersFraud(users: seq<User>, head: string) returns (members: seq<FraudMember>)
    requires DistinctIds(users)
    ensures members == FraudMembersOf(users, head, |users|)
  {
    var level, first, frontier := DirectFraudMembers(users, head);
    var memberL1;
    level, memberL1 := SearchDown(users, head, level, first, frontier);
    members := [];
    for i := 0 to |users|
      invariant members == FraudMembersOf(users, head, i)
    {
      var u := users[i];
      if u.id in memberL1 {
        members := members + [FraudMember(u, memberL1[u.id])];
      }
    }
  }

  method DirectFraudMembers(users: seq<User>, head: string)
    returns (level: map<string, nat>, memberL1: map<string, map<string, real>>, frontier: seq<string>)
    requires DistinctIds(users)
    ensures Entered(ChildrenOf(RefsOf(users), {head}), level, memberL1, frontier)
    ensures forall u | u in memberL1 :: memberL1[u] == HouseCpaOf(LinksOf(users, u))
  {
    memberL1, level, frontier := map[], map[], [];
    var level1 := QueryReferred(users, {head});
    QueryIds(users, {head});
    for i := 0 to |level1|
      invariant Entered(Ids(level1[..i]), level, memberL1, frontier)
      invariant forall u | u in memberL1 :: memberL1[u] == HouseCpaOf(LinksOf(users, u))
    {
      var l1 := level1[i];
      LinksKnown(users, l1);
      EnterNext(level1, i, level, memberL1, frontier, HouseCpaOf(l1.links));
      memberL1 := memberL1[l1.id := HouseCpaOf(l1.links)];
      level, frontier := level[l1.id := 1], frontier + [l1.id];
    }
    assert level1[..|level1|] == level1;
  }

  lemma {:induction false} FraudMembersHave(users: seq<User>, head: string, n: nat, f: FraudMember)
    requires n <= |users|
    ensures f in FraudMembersOf(users, head, n) <==>
            && f.user in users[..n] && IsMet(RefsOf(users), head, f.user.id)
            && f.l1Cpa == HouseCpaOf(LinksOf(users, Anchor(RefsOf(users), f.user.id, head, NETWORK_LEVEL_CAP)))
  {
    if n > 0 {
      FraudMembersHave(users, head, n - 1, f);
      assert users[..n] == users[..n - 1] + [users[n - 1]];
    }
  }

  /** Outside Pinbet the two views give a member the same anchor rate, and no balance member is missing. */
  lemma FraudViewAgrees(users: seq<User>, head: string, dimension: DimensionOf, m: Member, house: string)
    requires m in MembersOf(users, head, dimension, |users|)
    requires !IsPinbet(house) && ':' !in house
    ensures exists f | f in FraudMembersOf(users, head, |users|) ::
              && f.user == m.user
              && (house in f.l1Cpa <==> house in m.anchor.cpa)
              && (house in f.l1Cpa ==> f.l1Cpa[house] == m.anchor.cpa[house])
  {
    var refs := RefsOf(users);
    MembersMean(users, head, dimension, |users|, m);
    var links := LinksOf(users, Anchor(refs, m.user.id, head, NETWORK_LEVEL_CAP));
    var f := FraudMember(m.user, HouseCpaOf(links));
    assert users[..|users|] == users;
    FraudMembersHave(users, head, |users|, f);
    AnchorsAgreeOutsidePinbet(links, dimension, house);
  }
}
