/**
 What counts towards a balance: the days of data, the adjustments and the withdrawals, told by their dates, houses and
 statuses, and what grouping does to revenue.
 */
module BalanceScope {
  import opened Basics
  import opened NetworkMembers
  import opened Balance
  import opened Commission

  // ----- Data -----

  /**
   The instant from which data of a link counts: the requested start, the cutover and the house's own cutover, whichever
   is last.
   */
  predicate NotTooEarly(q: Query, st: Settings, house: string, date: int) {
    && date >= (if q.start.Some? then q.start.value else 1_577_836_800_000)
    && (st.cutover.Some? ==> date >= st.cutover.value)
    && (house in st.houseCutover ==> date >= st.houseCutover[house])
  }

  /** A day of data counts for a link: its campaign, its source, its date, and not in the audit span. */
  predicate CountsFor(q: Query, st: Settings, ml: NetLink, r: DataRow) {
    && r.campaign == ml.campaign
    && (q.house.Some? ==> q.house.value == ml.house && r.house == DataSourceHouse(ml.house))
    && NotTooEarly(q, st, ml.house, r.date) && r.date <= q.end
    && (st.audit.Some? ==> r.date < st.audit.value.0 || st.audit.value.1 <= r.date)
  }

  /** The query selects exactly the days that count, whichever other links take part in it. */
  lemma SelectedMeans(q: Query, st: Settings, ml: NetLink, links: seq<NetLink>, cutoverLinks: seq<NetLink>, r: DataRow)
    requires r.campaign == ml.campaign && ml in links && ml in cutoverLinks && Only(links, ml) && Only(cutoverLinks, ml)
    ensures Selected(DataFilter(q, st, links, cutoverLinks), r) <==> CountsFor(q, st, ml, r)
  {
    CutoverOfLink(cutoverLinks, ml, st, StartOf(st, q));
    assert ml.campaign in CampaignsOf(q, links) <==> Scoped(q, ml.house);
  }

  /** The CPAs of the days that count for the link, at the house whose data it reads. */
  function CpasFor(data: seq<DataRow>, q: Query, st: Settings, ml: NetLink): int {
    if data == [] then 0
    else
      var r := data[|data| - 1];
      CpasFor(data[..|data| - 1], q, st, ml)
      + if CountsFor(q, st, ml, r) && r.house == DataSourceHouse(ml.house) then r.cpaQualified else 0
  }

  lemma {:induction false} QualifiedMeans(data: seq<DataRow>, q: Query, st: Settings, ml: NetLink)
    ensures Qualified(data, LinkFilter(q, st, ml), ml.campaign, DataSourceHouse(ml.house)) == CpasFor(data, q, st, ml)
  {
    if data != [] {
      var r := data[|data| - 1];
      QualifiedMeans(data[..|data| - 1], q, st, ml);
      if r.campaign == ml.campaign {
        assert ml in [ml];
        SelectedMeans(q, st, ml, [ml], [ml], r);
      }
    }
  }

  /** The count by which commission is paid is that of the days that count. */
  lemma CountIsOfTheDays(w: World, ml: NetLink)
    ensures CountOf(w, ml) == CpasFor(w.data, w.q, w.st, ml)
  {
    QualifiedMeans(w.data, w.q, w.st, ml);
  }

  // ----- Grouping and revenue -----

  function GroupRev(rows: seq<AggRow>, n: nat, c: string, house: string): real
    requires n <= |rows|
  {
    if n == 0 then 0.0
    else GroupRev(rows, n - 1, c, house) + RevOf(rows[n - 1], c, house)
  }

  function RevOf(row: AggRow, c: string, house: string): real {
    if row.campaign == c && row.house == house then row.revShare else 0.0
  }

  /** The revenue that a filter lets through for one campaign. */
  function Revenue(data: seq<DataRow>, f: Filter, c: string, house: string): real {
    if data == [] then 0.0
    else
      var r := data[|data| - 1];
      Revenue(data[..|data| - 1], f, c, house)
          + if Selected(f, r) && r.campaign == c && r.house == house then r.revShare else 0.0
  }

  lemma {:induction false} GroupRevFirst(rows: seq<AggRow>, n: nat, c: string, house: string)
    requires 0 < n <= |rows|
    ensures GroupRev(rows, n, c, house) == RevOf(rows[0], c, house) + GroupRev(rows[1..], n - 1, c, house)
  {
    if n > 1 {
      GroupRevFirst(rows, n - 1, c, house);
    }
  }

  lemma {:induction false} AddToGroupAddsRev(groups: seq<AggRow>, r: DataRow, c: string, house: string)
    ensures var after := AddToGroup(groups, r);
            GroupRev(after, |after|, c, house) ==
            GroupRev(groups, |groups|, c, house) + if r.campaign == c && r.house == house then r.revShare else 0.0
  {
    var after := AddToGroup(groups, r);
    GroupRevFirst(after, |after|, c, house);
    if groups == [] {
      assert after[1..] == [];
    } else {
      GroupRevFirst(groups, |groups|, c, house);
      if groups[0].campaign == r.campaign && groups[0].house == r.house {
        assert after[1..] == groups[1..];
      } else {
        AddToGroupAddsRev(groups[1..], r, c, house);
        assert after[1..] == AddToGroup(groups[1..], r);
      }
    }
  }

  /** Grouping loses no revenue. */
  lemma {:induction false} GroupsHoldTheRevenue(data: seq<DataRow>, f: Filter, c: string, house: string)
    ensures var rows := Aggregate(data, f); GroupRev(rows, |rows|, c, house) == Revenue(data, f, c, house)
  {
    if data != [] {
      GroupsHoldTheRevenue(data[..|data| - 1], f, c, house);
      AddToGroupAddsRev(Aggregate(data[..|data| - 1], f), data[|data| - 1], c, house);
    }
  }

  /** The lookup by key text finds every group as it is. */
  lemma {:induction false} AggMapHoldsTheRows(rows: seq<AggRow>, n: nat, i: nat)
    requires i < n <= |rows| && DistinctGroups(rows) && PlainHouses(rows)
    ensures AggKey(rows[i].campaign, rows[i].house) in AggMap(rows, n)
    ensures AggMap(rows, n)[AggKey(rows[i].campaign, rows[i].house)] == rows[i]
  {
    if i < n - 1 {
      AggMapHoldsTheRows(rows, n - 1, i);
      if AggKey(rows[i].campaign, rows[i].house) == AggKey(rows[n - 1].campaign, rows[n - 1].house) {
        AggKeyIsInjective(rows[i].campaign, rows[i].house, rows[n - 1].campaign, rows[n - 1].house);
      }
    }
  }

  // ----- Adjustments and houses that appear -----

  /** Each adjustment counts in its own house, if all houses or that one are asked for. */
  lemma AdjustmentsCount(q: Query, adjustments: seq<Adjustment>, n: nat, house: string)
    requires n < |adjustments|
    ensures SumAt(AdjustmentPostings(q, adjustments, n + 1), house, Adjusted) ==
            SumAt(AdjustmentPostings(q, adjustments, n), house, Adjusted)
            + if adjustments[n].house == house && q.house in {None, Some(house)} then adjustments[n].amount else 0.0
  {
  }

  /** A Pinbet house appears once a link there is in scope, earnings or not. */
  lemma {:induction false} OpenedExactlyWhen(q: Query, links: seq<NetLink>, n: nat, house: string)
    requires n <= |links|
    ensures Mentioned(OpenPostings(q, links, n), house) <==>
            house in {"pinbet-diario", "pinbet-mensal"} && q.house in {None, Some(house)}
            && exists i | 0 <= i < n :: links[i].house == house
  {
    if n > 0 {
      OpenedExactlyWhen(q, links, n - 1, house);
    }
  }

  // ----- Withdrawals -----

  /**
   Money that is out or on its way: not failed or rejected, tagged with the house asked for or any real one, after both
   cutovers.
   */
  predicate IsOut(st: Settings, q: Query, w: Withdrawal) {
    && w.status in {PENDING, APPROVED, PROCESSING, COMPLETED}
    && (if q.house.Some? then q.house == Some(w.house) else w.house != "all")
    && (st.cutover.Some? ==> st.cutover.value <= w.createdAt)
    && (w.house in st.houseCutover ==> st.houseCutover[w.house] <= w.createdAt)
  }

  /** What left: the amount before the fee, less what came back, and never negative. */
  function Left(w: Withdrawal): real {
    var back := if w.refunded.Some? then w.refunded.value else 0.0;
    if w.originalAmount > back then w.originalAmount - back else 0.0
  }

  function LeftFrom(st: Settings, q: Query, ws: seq<Withdrawal>, house: string, n: nat): real
    requires n <= |ws|
  {
    if n == 0 then 0.0
    else
      var more := if IsOut(st, q, ws[n - 1]) && ws[n - 1].house == house then Left(ws[n - 1]) else 0.0;
      LeftFrom(st, q, ws, house, n - 1) + more
  }

  function LeftAs(st: Settings, q: Query, ws: seq<Withdrawal>, pending: bool, n: nat): real
    requires n <= |ws|
  {
    if n == 0 then 0.0
    else
      var counts := IsOut(st, q, ws[n - 1]) && (ws[n - 1].status == PENDING) == pending;
      LeftAs(st, q, ws, pending, n - 1) + (if counts then Left(ws[n - 1]) else 0.0)
  }

  /**
   Every withdrawal that is out reduces its house's total and adds to the pending or the approved sum; no other counts.
   */
  lemma {:induction false} WithdrawalsCount(st: Settings, q: Query, ws: seq<Withdrawal>, house: string, pending: bool,
                                            n: nat)
    requires n <= |ws|
    ensures SumAt(WithdrawalPostings(st, q, ws, n), house, Total) == -LeftFrom(st, q, ws, house, n)
    ensures WithdrawnSum(st, q, ws, pending, n) == LeftAs(st, q, ws, pending, n)
  {
    if n > 0 {
      WithdrawalsCount(st, q, ws, house, pending, n - 1);
    }
  }

  function WithoutFailed(ws: seq<Withdrawal>): seq<Withdrawal> {
    if ws == [] then []
    else WithoutFailed(ws[..|ws| - 1]) + if ws[|ws| - 1].status in {FAILED, REJECTED} then [] else [ws[|ws| - 1]]
  }

  /** Failed and rejected withdrawals change nothing: the sums are those of the others. */
  lemma {:induction false} FailedChangeNothing(st: Settings, q: Query, ws: seq<Withdrawal>, house: string,
                                               pending: bool)
    ensures var rest := WithoutFailed(ws);
            && SumAt(WithdrawalPostings(st, q, ws, |ws|), house, Total) ==
                SumAt(WithdrawalPostings(st, q, rest, |rest|), house, Total)
            && WithdrawnSum(st, q, ws, pending, |ws|) == WithdrawnSum(st, q, rest, pending, |rest|)
  {
    if ws != [] {
      var init, last := ws[..|ws| - 1], ws[|ws| - 1];
      FailedChangeNothing(st, q, init, house, pending);
      PrefixCounts(st, q, init, last, house, pending, |init|);
      assert ws == init + [last];
      if last.status in {FAILED, REJECTED} {
        assert WithoutFailed(ws) == WithoutFailed(init);
      } else {
        PrefixCounts(st, q, WithoutFailed(init), last, house, pending, |WithoutFailed(init)|);
      }
    }
  }

  lemma {:induction false} PrefixCounts(st: Settings, q: Query, ws: seq<Withdrawal>, w: Withdrawal, house: string,
                                        pending: bool, n: nat)
    requires n <= |ws|
    ensures SumAt(WithdrawalPostings(st, q, ws + [w], n), house, Total) ==
        SumAt(WithdrawalPostings(st, q, ws, n), house, Total)
    ensures WithdrawnSum(st, q, ws + [w], pending, n) == WithdrawnSum(st, q, ws, pending, n)
  {
    if n > 0 {
      PrefixCounts(st, q, ws, w, house, pending, n - 1);
    }
  }
}
