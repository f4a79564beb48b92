/**
 The two computations of CPA totals: the engine's batch over all heads, and the live total of one user.
 Both search the referral graph breadth first, but over different structures -- an adjacency map built
 once, or one query per layer.
 */
module PrizeTotals {
  import opened Basics
  import opened Referral

  datatype User = User(id: string, referredBy: Option<string>, deleted: bool)

  datatype LinkRow = LinkRow(user: string, campaign: string, house: string, deleted: bool)

  datatype DataRow = DataRow(campaign: string, house: string, day: int, cpa: int)

  /** The rule version's house, if any, and its counting window. */
  datatype Scope = Scope(house: Option<string>, start: int, end: int)

  datatype Tables = Tables(users: seq<User>, links: seq<LinkRow>, data: seq<DataRow>)

  // ----- Queries -----

  predicate InScope(l: LinkRow, sc: Scope) {
    !l.deleted && (sc.house.None? || l.house == sc.house.value) && l.campaign != ""
  }

  predicate InWindow(r: DataRow, sc: Scope) {
    sc.start <= r.day <= sc.end && (sc.house.None? || r.house == sc.house.value)
  }

  /** The sum of qualified CPAs over the rows in scope whose campaign is in `campaigns`. */
  function SumWhere(data: seq<DataRow>, sc: Scope, campaigns: set<string>): int {
    if data == [] then 0
    else
      (if InWindow(data[0], sc) && data[0].campaign in campaigns then data[0].cpa else 0)
          + SumWhere(data[1..], sc, campaigns)
  }

  predicate HasRow(data: seq<DataRow>, sc: Scope, campaign: string) {
    exists i | 0 <= i < |data| :: InWindow(data[i], sc) && data[i].campaign == campaign
  }

  /** `groupBy campaignId`: one entry per campaign that has rows. */
  function CpaByCampaign(data: seq<DataRow>, sc: Scope, campaigns: set<string>): map<string, int> {
    map c | c in campaigns && HasRow(data, sc, c) :: SumWhere(data, sc, {c})
  }

  function RefsOf(users: seq<User>): Refs {
    if users == [] then map[]
    else
      var u := users[|users| - 1];
      var refs := RefsOf(users[..|users| - 1]);
      if u.deleted || u.referredBy.None? then refs else refs[u.id := u.referredBy.value]
  }

  ghost predicate DistinctIds(users: seq<User>) {
    forall i, j | 0 <= i < j < |users| :: users[i].id != users[j].id
  }

  /** The users in a referral query: those not deleted whose referrer is in `parents`, in table order. */
  function QueryChildren(users: seq<User>, parents: set<string>): seq<string> {
    if users == [] then []
    else
      (if !users[0].deleted && users[0].referredBy.Some? && users[0].referredBy.value in parents
          then [users[0].id] else [])
      + QueryChildren(users[1..], parents)
  }

  /** `campaignToUser`: a later link overwrites an earlier one. */
  function OwnerMap(links: seq<LinkRow>, sc: Scope): map<string, string> {
    if links == [] then map[]
    else
      var l := links[|links| - 1];
      var owners := OwnerMap(links[..|links| - 1], sc);
      if InScope(l, sc) then owners[l.campaign := l.user] else owners
  }

  /** The campaigns of the in-scope links of the given users. */
  function CampaignsOf(links: seq<LinkRow>, sc: Scope, users: set<string>): set<string> {
    set i | 0 <= i < |links| && InScope(links[i], sc) && links[i].user in users :: links[i].campaign
  }

  function OwnedBy(owners: map<string, string>, users: set<string>): set<string> {
    set c | c in owners && owners[c] in users
  }

  // ----- What the totals mean -----

  /** The engine's total for a head. */
  function BatchTotal(t: Tables, sc: Scope, head: string): int {
    SumWhere(t.data, sc, OwnedBy(OwnerMap(t.links, sc), Downline(RefsOf(t.users), head)))
  }

  /** The total shown to a user. */
  function LiveTotal(t: Tables, sc: Scope, head: string): int {
    SumWhere(t.data, sc, CampaignsOf(t.links, sc, Downline(RefsOf(t.users), head)))
  }

  /** Each in-scope active campaign belongs to one user. */
  ghost predicate OneOwner(links: seq<LinkRow>, sc: Scope) {
    forall i, j | 0 <= i < |links| && 0 <= j < |links| && InScope(links[i], sc) && InScope(links[j], sc) ::
      links[i].campaign == links[j].campaign ==> links[i].user == links[j].user
  }

  lemma {:induction false} OwnerMapMeans(links: seq<LinkRow>, sc: Scope, c: string)
    ensures c in OwnerMap(links, sc) <==> exists i | 0 <= i < |links| :: InScope(links[i], sc) && links[i].campaign == c
    ensures c in OwnerMap(links, sc) ==>
              exists i | 0 <= i < |links| ::
                  InScope(links[i], sc) && links[i].campaign == c && links[i].user == OwnerMap(links, sc)[c]
  {
    if links != [] {
      var init := links[..|links| - 1];
      OwnerMapMeans(init, sc, c);
      var l := links[|links| - 1];
      if InScope(l, sc) && l.campaign == c {
      } else if c in OwnerMap(init, sc) {
        var i :| 0 <= i < |init| && InScope(init[i], sc) && init[i].campaign == c
            && init[i].user == OwnerMap(init, sc)[c];
        assert links[i] == init[i];
      }
    }
  }

  /** With one owner per campaign, the campaigns mapped to some users are those of their links. */
  lemma OwnedIsLinked(links: seq<LinkRow>, sc: Scope, users: set<string>)
    requires OneOwner(links, sc)
    ensures OwnedBy(OwnerMap(links, sc), users) == CampaignsOf(links, sc, users)
  {
    var owners := OwnerMap(links, sc);
    forall c
      ensures c in OwnedBy(owners, users) <==> c in CampaignsOf(links, sc, users)
    {
      OwnerMapMeans(links, sc, c);
    }
  }

  /** The engine and the live view agree on every referral graph, cycles and self-referrals included. */
  lemma BatchAgreesWithLive(t: Tables, sc: Scope, head: string)
    requires OneOwner(t.links, sc)
    ensures BatchTotal(t, sc, head) == LiveTotal(t, sc, head)
  {
    OwnedIsLinked(t.links, sc, Downline(RefsOf(t.users), head));
  }

  /** The individual mode agrees in the same way: `own` is what `computeIndividualTotals` returns. */
  lemma IndividualAgreesWithLive(t: Tables, sc: Scope, own: map<string, int>, user: string)
    requires OneOwner(t.links, sc) && OwnTotals(own, OwnerMap(t.links, sc), t.data, sc)
    ensures Get(own, user) == SumWhere(t.data, sc, CampaignsOf(t.links, sc, {user}))
  {
    OwnedIsLinked(t.links, sc, {user});
  }

  // ----- Sums over sets of users -----

  function Get(own: map<string, int>, u: string): int {
    if u in own then own[u] else 0
  }

  ghost function SumGet(own: map<string, int>, users: set<string>): int {
    if users == {} then 0 else var u :| u in users; Get(own, u) + SumGet(own, users - {u})
  }

  lemma {:induction false} SumGetRemove(own: map<string, int>, users: set<string>, u: string)
    requires u in users
    ensures SumGet(own, users) == Get(own, u) + SumGet(own, users - {u})
    decreases users
  {
    var v :| v in users && SumGet(own, users) == Get(own, v) + SumGet(own, users - {v});
    if v != u {
      SumGetRemove(own, users - {v}, u);
      SumGetRemove(own, users - {u}, v);
      assert users - {v} - {u} == users - {u} - {v};
    }
  }

  lemma {:induction false} SumWhereDisjoint(data: seq<DataRow>, sc: Scope, a: set<string>, b: set<string>)
    requires a !! b
    ensures SumWhere(data, sc, a + b) == SumWhere(data, sc, a) + SumWhere(data, sc, b)
  {
    if data != [] {
      SumWhereDisjoint(data[1..], sc, a, b);
    }
  }

  lemma {:induction false} SumWhereNoRow(data: seq<DataRow>, sc: Scope, c: string)
    requires !HasRow(data, sc, c)
    ensures SumWhere(data, sc, {c}) == 0
  {
    if data != [] {
      assert forall i | 0 <= i < |data[1..]| :: data[1..][i] == data[i + 1];
      SumWhereNoRow(data[1..], sc, c);
    }
  }

  lemma {:induction false} SumWhereEmpty(data: seq<DataRow>, sc: Scope)
    ensures SumWhere(data, sc, {}) == 0
  {
    if data != [] {
      SumWhereEmpty(data[1..], sc);
    }
  }

  /** `own` holds every user's own total. */
  ghost predicate OwnTotals(own: map<string, int>, owners: map<string, string>, data: seq<DataRow>, sc: Scope) {
    forall u :: Get(own, u) == SumWhere(data, sc, OwnedBy(owners, {u}))
  }

  /** Adding up users is adding up the rows of all their campaigns, each once. */
  lemma {:induction false} SumGetIsSumWhere(own: map<string, int>, owners: map<string, string>, data: seq<DataRow>,
                                            sc: Scope, users: set<string>)
    requires OwnTotals(own, owners, data, sc)
    ensures SumGet(own, users) == SumWhere(data, sc, OwnedBy(owners, users))
    decreases users
  {
    if users == {} {
      assert OwnedBy(owners, users) == {};
      SumWhereEmpty(data, sc);
    } else {
      var u :| u in users;
      SumGetRemove(own, users, u);
      SumGetIsSumWhere(own, owners, data, sc, users - {u});
      SumWhereDisjoint(data, sc, OwnedBy(owners, {u}), OwnedBy(owners, users - {u}));
      assert OwnedBy(owners, users) == OwnedBy(owners, {u}) + OwnedBy(owners, users - {u});
    }
  }

  // ----- The engine's batch -----

  /** `computeIndividualTotals`, and the first half of `computeNetworkTotals`. */
  method ComputeOwnTotals(t: Tables, sc: Scope) returns (own: map<string, int>)
    ensures OwnTotals(own, OwnerMap(t.links, sc), t.data, sc)
  {
    var owners: map<string, string> := map[];
    for i := 0 to |t.links|
      invariant owners == OwnerMap(t.links[..i], sc)
    {
      assert t.links[..i + 1][..i] == t.links[..i];
      if InScope(t.links[i], sc) {
        owners := owners[t.links[i].campaign := t.links[i].user];
      }
    }
    assert t.links[..|t.links|] == t.links;
    var grouped := CpaByCampaign(t.data, sc, owners.Keys);
    own := map[];
    var todo := grouped.Keys;
    SumWhereEmpty(t.data, sc);
    assert grouped.Keys - todo == {} && forall u :: OwnedBy(owners, {u}) * {} == {};
    while todo != {}
      invariant todo <= grouped.Keys
      invariant forall u :: Get(own, u) == SumWhere(t.data, sc, OwnedBy(owners, {u}) * (grouped.Keys - todo))
      decreases todo
    {
      var c :| c in todo;
      var user := owners[c];
      AddCampaign(t.data, sc, owners, grouped.Keys - todo, c);
      ghost var before := own;
      own := own[user := Get(own, user) + grouped[c]];
      assert grouped.Keys - (todo - {c}) == (grouped.Keys - todo) + {c};
      assert forall u | u != user :: Get(own, u) == Get(before, u);
      todo := todo - {c};
    }
    forall u
      ensures Get(own, u) == SumWhere(t.data, sc, OwnedBy(owners, {u}))
    {
      DropEmptyCampaigns(t.data, sc, OwnedBy(owners, {u}), grouped.Keys);
      assert grouped.Keys - todo == grouped.Keys;
    }
  }

  /** Accounting for one more campaign changes the total of its owner alone. */
  lemma AddCampaign(data: seq<DataRow>, sc: Scope, owners: map<string, string>, seen: set<string>, c: string)
    requires c in owners && c !in seen
    ensures forall u :: SumWhere(data, sc, OwnedBy(owners, {u}) * (seen + {c})) ==
                        SumWhere(data, sc, OwnedBy(owners, {u}) * seen) +
                        if u == owners[c] then SumWhere(data, sc, {c}) else 0
  {
    forall u
      ensures SumWhere(data, sc, OwnedBy(owners, {u}) * (seen + {c})) ==
              SumWhere(data, sc, OwnedBy(owners, {u}) * seen) + if u == owners[c] then SumWhere(data, sc, {c}) else 0
    {
      var mine := OwnedBy(owners, {u});
      if u == owners[c] {
        SumWhereDisjoint(data, sc, mine * seen, {c});
        assert mine * (seen + {c}) == mine * seen + {c};
      } else {
        assert mine * (seen + {c}) == mine * seen;
      }
    }
  }

  /** Campaigns without rows contribute nothing. */
  lemma {:induction false} DropEmptyCampaigns(data: seq<DataRow>, sc: Scope, campaigns: set<string>,
                                              grouped: set<string>)
    requires forall c | c in campaigns && c !in grouped :: !HasRow(data, sc, c)
    ensures SumWhere(data, sc, campaigns) == SumWhere(data, sc, campaigns * grouped)
    decreases campaigns
  {
    if campaigns <= grouped {
      assert campaigns * grouped == campaigns;
    } else {
      var c :| c in campaigns && c !in grouped;
      DropEmptyCampaigns(data, sc, campaigns - {c}, grouped);
      SumWhereDisjoint(data, sc, campaigns - {c}, {c});
      SumWhereNoRow(data, sc, c);
      assert campaigns - {c} + {c} == campaigns && (campaigns - {c}) * grouped == campaigns * grouped;
    }
  }

  /** The adjacency map lists exactly the children of every parent. */
  ghost predicate Adjacency(children: map<string, seq<string>>, refs: Refs) {
    && (forall p, u | p in children && u in children[p] :: u in refs && refs[u] == p)
    && (forall u | u in refs :: refs[u] in children && u in children[refs[u]])
  }

  method BuildChildren(users: seq<User>) returns (children: map<string, seq<string>>)
    requires DistinctIds(users)
    ensures Adjacency(children, RefsOf(users))
  {
    children := map[];
    for i := 0 to |users|
      invariant Adjacency(children, RefsOf(users[..i]))
    {
      var u := users[i];
      assert users[..i + 1][..i] == users[..i];
      RefsAreEarlier(users[..i], u.id);
      if !u.deleted && u.referredBy.Some? {
        var parent := u.referredBy.value;
        var siblings := if parent in children then children[parent] else [];
        children := children[parent := siblings + [u.id]];
      }
    }
    assert users[..|users|] == users;
  }

  lemma {:induction false} RefsAreEarlier(users: seq<User>, id: string)
    requires forall i | 0 <= i < |users| :: users[i].id != id
    ensures id !in RefsOf(users)
  {
    if users != [] {
      RefsAreEarlier(users[..|users| - 1], id);
    }
  }

  lemma ToSetAppend(xs: seq<string>, ys: seq<string>)
    ensures ToSet(xs + ys) == ToSet(xs) + ToSet(ys)
  {
  }

  /** Visiting one more user adds their own total and queues their children. */
  lemma VisitOne(children: map<string, seq<string>>, own: map<string, int>, head: string, refs: Refs,
                 before: set<string>, visited: set<string>, next: seq<string>, kids: seq<string>, id: string)
    requires Adjacency(children, refs) && before <= visited && head in visited && id !in visited
    requires kids == if id in children then children[id] else []
    ensures SumGet(own, visited + {id} - {head}) == SumGet(own, visited - {head}) + Get(own, id)
    ensures ToSet(next) == ChildrenOf(refs, visited - before) ==>
              ToSet(next + kids) == ChildrenOf(refs, visited + {id} - before)
  {
    SumGetRemove(own, visited + {id} - {head}, id);
    assert visited + {id} - {head} - {id} == visited - {head};
    ToSetAppend(next, kids);
    assert ToSet(kids) == ChildrenOf(refs, {id});
    assert visited + {id} - before == (visited - before) + {id};
    assert ChildrenOf(refs, (visited - before) + {id}) == ChildrenOf(refs, visited - before) + ChildrenOf(refs, {id});
  }

  /** One layer of the search: the users not seen before are counted and their children queued. */
  method VisitLayer(children: map<string, seq<string>>, own: map<string, int>, head: string, ghost refs: Refs,
                    frontier: seq<string>, before: set<string>, sumBefore: int)
    returns (visited: set<string>, next: seq<string>, sum: int)
    requires Adjacency(children, refs) && head in before && sumBefore == SumGet(own, before - {head})
    ensures visited == before + ToSet(frontier) && ToSet(next) == ChildrenOf(refs, visited - before)
    ensures sum == SumGet(own, visited - {head})
  {
    visited, next, sum := before, [], sumBefore;
    assert visited - before == {} && ToSet(next) == ChildrenOf(refs, {});
    for i := 0 to |frontier|
      invariant head in visited && before <= visited && visited == before + ToSet(frontier[..i])
      invariant ToSet(next) == ChildrenOf(refs, visited - before)
      invariant sum == SumGet(own, visited - {head})
    {
      var id := frontier[i];
      ToSetAppend(frontier[..i], [id]);
      assert frontier[..i + 1] == frontier[..i] + [id] && ToSet([id]) == {id};
      if id !in visited {
        var kids := if id in children then children[id] else [];
        VisitOne(children, own, head, refs, before, visited, next, kids, id);
        visited, sum, next := visited + {id}, sum + Get(own, id), next + kids;
      }
    }
    assert frontier[..|frontier|] == frontier;
  }

  /** The search has visited everyone up to `depth` hops below the head; their children come next. */
  ghost predicate Searched(own: map<string, int>, refs: Refs, head: string, depth: nat, visited: set<string>,
                           frontier: seq<string>, sum: int) {
    && visited == Network(refs, head, depth) && ToSet(frontier) == ChildrenOf(refs, Newest(refs, head, depth))
    && head in visited && sum == SumGet(own, visited - {head})
  }

  lemma FirstFrontier(children: map<string, seq<string>>, own: map<string, int>, refs: Refs, head: string)
    requires Adjacency(children, refs)
    ensures Searched(own, refs, head, 0, {head}, if head in children then children[head] else [], 0)
  {
    assert {head} - {head} == {};
    assert Network(refs, head, 0) == {head};
  }

  lemma LayerSearched(own: map<string, int>, refs: Refs, head: string, depth: nat, before: set<string>,
                      frontier: seq<string>, sumBefore: int, visited: set<string>, next: seq<string>, sum: int)
    requires Searched(own, refs, head, depth, before, frontier, sumBefore)
    requires visited == before + ToSet(frontier) && ToSet(next) == ChildrenOf(refs, visited - before)
    requires sum == SumGet(own, visited - {head})
    ensures Searched(own, refs, head, depth + 1, visited, next, sum)
  {
    LayerVisited(refs, head, depth, before, visited);
  }

  lemma SearchDone(own: map<string, int>, refs: Refs, head: string, depth: nat, visited: set<string>,
                   frontier: seq<string>, sum: int)
    requires Searched(own, refs, head, depth, visited, frontier, sum)
    requires depth == NETWORK_LEVEL_CAP || (depth < NETWORK_LEVEL_CAP && frontier == [])
    ensures sum == SumGet(own, Downline(refs, head))
  {
    assert frontier == [] ==> ToSet(frontier) == {};
    SearchComplete(refs, head, depth, visited);
  }

  /** The search below one head: its descendants' own totals, the head's own left out. */
  method SumDownline(children: map<string, seq<string>>, own: map<string, int>, head: string, ghost refs: Refs)
    returns (sum: int)
    requires Adjacency(children, refs)
    ensures sum == SumGet(own, Downline(refs, head))
  {
    sum := 0;
    var visited := {head};
    var frontier := if head in children then children[head] else [];
    var depth := 1;
    FirstFrontier(children, own, refs, head);
    while depth <= NETWORK_LEVEL_CAP && |frontier| > 0
      invariant 1 <= depth <= NETWORK_LEVEL_CAP + 1
      invariant Searched(own, refs, head, depth - 1, visited, frontier, sum)
    {
      ghost var before, layer, sumBefore := visited, frontier, sum;
      visited, frontier, sum := VisitLayer(children, own, head, refs, frontier, visited, sum);
      LayerSearched(own, refs, head, depth - 1, before, layer, sumBefore, visited, frontier, sum);
      depth := depth + 1;
    }
    SearchDone(own, refs, head, depth - 1, visited, frontier, sum);
  }

  /** `computeNetworkTotals`: the heads with a positive total, and exactly those. */
  method ComputeNetworkTotals(t: Tables, sc: Scope) returns (totals: map<string, int>)
    requires DistinctIds(t.users)
    ensures forall head :: head in totals <==> BatchTotal(t, sc, head) > 0
    ensures forall head | head in totals :: totals[head] == BatchTotal(t, sc, head)
  {
    var own := ComputeOwnTotals(t, sc);
    var children := BuildChildren(t.users);
    ghost var refs := RefsOf(t.users);
    totals := map[];
    var todo := children.Keys;
    while todo != {}
      invariant todo <= children.Keys
      invariant forall head :: head in totals <==> head in children.Keys - todo && BatchTotal(t, sc, head) > 0
      invariant forall head | head in totals :: totals[head] == BatchTotal(t, sc, head)
      decreases todo
    {
      var head :| head in todo;
      var sum := SumDownline(children, own, head, refs);
      SumGetIsSumWhere(own, OwnerMap(t.links, sc), t.data, sc, Downline(refs, head));
      if sum > 0 {
        totals := totals[head := sum];
      }
      todo := todo - {head};
    }
    forall head | head !in children
      ensures BatchTotal(t, sc, head) == 0
    {
      assert Network(refs, head, 0) == {head};
      assert ChildrenOf(refs, Newest(refs, head, 0)) == {};
      NetworkFixpoint(refs, head, 0, NETWORK_LEVEL_CAP);
      assert Downline(refs, head) == {} && OwnedBy(OwnerMap(t.links, sc), {}) == {};
      SumWhereEmpty(t.data, sc);
    }
  }

  // ----- The live total -----

  lemma {:induction false} QueryChildrenMeans(users: seq<User>, parents: set<string>)
    requires DistinctIds(users)
    ensures ToSet(QueryChildren(users, parents)) == ChildrenOf(RefsOf(users), parents)
  {
    forall u
      ensures u in QueryChildren(users, parents) <==> u in ChildrenOf(RefsOf(users), parents)
    {
      QueryHas(users, parents, u);
      RefsHas(users, u);
    }
  }

  predicate IsChildRow(u: User, id: string) {
    u.id == id && !u.deleted && u.referredBy.Some?
  }

  lemma {:induction false} QueryHas(users: seq<User>, parents: set<string>, id: string)
    ensures id in QueryChildren(users, parents) <==>
            exists i | 0 <= i < |users| :: IsChildRow(users[i], id) && users[i].referredBy.value in parents
  {
    if users != [] {
      QueryHas(users[1..], parents, id);
      if i :| 0 <= i < |users[1..]| && IsChildRow(users[1..][i], id) && users[1..][i].referredBy.value in parents {
        assert users[i + 1] == users[1..][i];
      }
      if i :| 0 <= i < |users| && IsChildRow(users[i], id) && users[i].referredBy.value in parents {
        assert i > 0 ==> users[1..][i - 1] == users[i];
      }
    }
  }

  lemma {:induction false} RefsHas(users: seq<User>, id: string)
    requires DistinctIds(users)
    ensures id in RefsOf(users) ==>
              exists i | 0 <= i < |users| :: IsChildRow(users[i], id) && users[i].referredBy.value == RefsOf(users)[id]
    ensures forall i | 0 <= i < |users| && IsChildRow(users[i], id) ::
              id in RefsOf(users) && RefsOf(users)[id] == users[i].referredBy.value
  {
    if users != [] {
      var init := users[..|users| - 1];
      RefsHas(init, id);
      if id in RefsOf(init) {
        var i :| 0 <= i < |init| && IsChildRow(init[i], id) && init[i].referredBy.value == RefsOf(init)[id];
        assert users[i] == init[i] && users[i].id != users[|users| - 1].id;
      }
    }
  }

  /** One layer of the live search: the rows not seen before join the downline and the next frontier. */
  method CollectLayer(rows: seq<string>, user: string, before: set<string>, known: seq<string>)
    returns (visited: set<string>, downline: seq<string>, next: seq<string>)
    requires user in before && ToSet(known) == before - {user}
    ensures visited == before + ToSet(rows) && ToSet(downline) == visited - {user} && ToSet(next) == visited - before
  {
    visited, downline, next := before, known, [];
    for i := 0 to |rows|
      invariant before <= visited == before + ToSet(rows[..i])
      invariant ToSet(next) == visited - before && ToSet(downline) == visited - {user}
    {
      var id := rows[i];
      ToSetAppend(rows[..i], [id]);
      assert rows[..i + 1] == rows[..i] + [id] && ToSet([id]) == {id};
      if id !in visited {
        ToSetAppend(next, [id]);
        ToSetAppend(downline, [id]);
        visited, downline, next := visited + {id}, downline + [id], next + [id];
      }
    }
    assert rows[..|rows|] == rows;
  }

  /** `networkTotal`: one query per layer, then one aggregate over the campaigns of everyone found. */
  method NetworkTotal(t: Tables, sc: Scope, user: string) returns (total: int)
    requires DistinctIds(t.users)
    ensures total == LiveTotal(t, sc, user)
  {
    ghost var refs := RefsOf(t.users);
    var downline: seq<string> := [];
    var frontier := [user];
    var visited := {user};
    var depth := 1;
    assert Network(refs, user, 0) == {user};
    while depth <= NETWORK_LEVEL_CAP && |frontier| > 0
      invariant 1 <= depth <= NETWORK_LEVEL_CAP + 1
      invariant visited == Network(refs, user, depth - 1) && ToSet(frontier) == Newest(refs, user, depth - 1)
      invariant ToSet(downline) == visited - {user}
    {
      var rows := QueryChildren(t.users, ToSet(frontier));
      QueryChildrenMeans(t.users, ToSet(frontier));
      assert user in visited;
      ghost var before := visited;
      visited, downline, frontier := CollectLayer(rows, user, visited, downline);
      LayerVisited(refs, user, depth - 1, before, visited);
      depth := depth + 1;
    }
    assert ChildrenOf(refs, {}) == {};
    assert frontier == [] ==> ToSet(frontier) == {};
    SearchComplete(refs, user, depth - 1, visited);
    if downline == [] {
      assert Downline(refs, user) == {} && CampaignsOf(t.links, sc, {}) == {};
      SumWhereEmpty(t.data, sc);
      return 0;
    }
    total := SumWhere(t.data, sc, CampaignsOf(t.links, sc, ToSet(downline)));
  }

  // ----- The totals, in plain terms -----

  /** Users who are not deleted are below those who referred them. */
  ghost predicate Referred(users: seq<User>, child: string, parent: string) {
    exists u | u in users :: u.id == child && !u.deleted && u.referredBy == Some(parent)
  }

  lemma RefsMean(users: seq<User>, child: string, parent: string)
    requires DistinctIds(users)
    ensures (child in RefsOf(users) && RefsOf(users)[child] == parent) <==> Referred(users, child, parent)
  {
    RefsHas(users, child);
    if Referred(users, child, parent) {
      var u :| u in users && u.id == child && !u.deleted && u.referredBy == Some(parent);
      var i :| 0 <= i < |users| && users[i] == u;
      assert IsChildRow(users[i], child);
    }
  }

  /** One to ten referrals below the head, by any way, and not the head. */
  ghost predicate IsBelow(users: seq<User>, u: string, head: string) {
    u != head && exists k: nat | 1 <= k <= 10 :: AncestorAt(RefsOf(users), u, k) == Some(head)
  }

  lemma DownlineMeans(users: seq<User>, head: string, u: string)
    ensures u in Downline(RefsOf(users), head) <==> IsBelow(users, u, head)
  {
    DownlineIsByAncestors(RefsOf(users), head, u);
    if u in Downline(RefsOf(users), head) {
      var k: nat :| k <= NETWORK_LEVEL_CAP && AncestorAt(RefsOf(users), u, k) == Some(head);
      assert k == 0 ==> AncestorAt(RefsOf(users), u, k) == Some(u);
      assert 1 <= k <= 10;
    }
    if IsBelow(users, u, head) {
      var k: nat :| 1 <= k <= 10 && AncestorAt(RefsOf(users), u, k) == Some(head);
      AncestorIsReached(RefsOf(users), u, head, NETWORK_LEVEL_CAP, k);
    }
  }

  /** A day of data counts: in the window, of the version's house, and on an active link of someone below the head. */
  ghost predicate CountsBelow(t: Tables, sc: Scope, head: string, r: DataRow) {
    && sc.start <= r.day && r.day <= sc.end && (sc.house.Some? ==> sc.house.value == r.house)
    && exists l | l in t.links ::
         !l.deleted && l.campaign == r.campaign && |l.campaign| > 0 && (sc.house.Some? ==> sc.house.value == l.house)
             && IsBelow(t.users, l.user, head)
  }

  ghost function CpasBelow(t: Tables, sc: Scope, head: string, data: seq<DataRow>): int {
    if data == [] then 0
    else (if CountsBelow(t, sc, head, data[0]) then data[0].cpa else 0) + CpasBelow(t, sc, head, data[1..])
  }

  lemma RowCountsBelow(t: Tables, sc: Scope, head: string, r: DataRow)
    ensures CountsBelow(t, sc, head, r) <==>
            InWindow(r, sc) && r.campaign in CampaignsOf(t.links, sc, Downline(RefsOf(t.users), head))
  {
    var below := Downline(RefsOf(t.users), head);
    if r.campaign in CampaignsOf(t.links, sc, below) {
      var i :| 0 <= i < |t.links| && InScope(t.links[i], sc) && t.links[i].user in below
          && t.links[i].campaign == r.campaign;
      var l := t.links[i];
      DownlineMeans(t.users, head, l.user);
      assert l in t.links && !l.deleted && l.campaign == r.campaign && |l.campaign| > 0
          && IsBelow(t.users, l.user, head);
      assert (sc.house.Some? ==> sc.house.value == l.house);
    }
    if CountsBelow(t, sc, head, r) {
      var l :| l in t.links && !l.deleted && l.campaign == r.campaign && |l.campaign| > 0
          && (sc.house.Some? ==> sc.house.value == l.house)
               && IsBelow(t.users, l.user, head);
      DownlineMeans(t.users, head, l.user);
      var i :| 0 <= i < |t.links| && t.links[i] == l;
      assert InScope(t.links[i], sc) && t.links[i].user in below;
      assert t.links[i].campaign in CampaignsOf(t.links, sc, below);
    }
  }

  lemma {:induction false} SumIsCpasBelow(t: Tables, sc: Scope, head: string, data: seq<DataRow>)
    ensures SumWhere(data, sc, CampaignsOf(t.links, sc, Downline(RefsOf(t.users), head))) ==
        CpasBelow(t, sc, head, data)
  {
    if data != [] {
      SumIsCpasBelow(t, sc, head, data[1..]);
      RowCountsBelow(t, sc, head, data[0]);
    }
  }

  /** The total a user sees, and the engine's with one owner per campaign, is the sum of the days that count. */
  lemma TotalsAreOfTheDays(t: Tables, sc: Scope, head: string)
    ensures LiveTotal(t, sc, head) == CpasBelow(t, sc, head, t.data)
    ensures OneOwner(t.links, sc) ==> BatchTotal(t, sc, head) == CpasBelow(t, sc, head, t.data)
  {
    SumIsCpasBelow(t, sc, head, t.data);
    if OneOwner(t.links, sc) {
      BatchAgreesWithLive(t, sc, head);
    }
  }
}
