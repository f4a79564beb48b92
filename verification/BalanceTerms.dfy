/**
 The amounts of the balance in plain terms: rates, counts and dates of single links, rows, frauds and withdrawals.
 Fraud is clawed back at the rate at which it was paid, so covered fraud never costs more than it brought.
 */
module BalanceTerms {
  import opened Basics
  import opened NetworkMembers
  import opened Balance

  function OrZero(rate: Option<real>): real {
    match rate
    case None => 0.0
    case Some(x) => x
  }

  // ----- Which link is found -----

  /** Link `i` is the first with the property. */
  predicate IsFirst(links: seq<NetLink>, i: nat, good: NetLink -> bool) {
    i < |links| && good(links[i]) && forall j | 0 <= j < i :: !good(links[j])
  }

  ghost predicate FoundFirst(links: seq<NetLink>, good: NetLink -> bool, found: Option<NetLink>) {
    if found.Some? then exists i: nat :: IsFirst(links, i, good) && links[i] == found.value
    else forall j | 0 <= j < |links| :: !good(links[j])
  }

  lemma FirstOfTail(links: seq<NetLink>, good: NetLink -> bool, found: Option<NetLink>)
    requires links != [] && !good(links[0]) && FoundFirst(links[1..], good, found)
    ensures FoundFirst(links, good, found)
  {
    if found.Some? {
      var i: nat :| IsFirst(links[1..], i, good) && links[1..][i] == found.value;
      assert links[i + 1] == links[1..][i];
      assert forall j | 0 < j < i + 1 :: links[j] == links[1..][j - 1];
      assert IsFirst(links, i + 1, good);
    } else {
      assert forall j | 0 < j < |links| :: links[j] == links[1..][j - 1];
    }
  }

  lemma FirstIsHead(links: seq<NetLink>, good: NetLink -> bool)
    requires links != [] && good(links[0])
    ensures FoundFirst(links, good, Some(links[0]))
  {
    assert IsFirst(links, 0, good);
  }

  /** The daily houses of two providers read the data of the provider's other house. */
  predicate ReadsDataOf(house: string, source: string) {
    || (house == "esportiva-diario" && source == "esportivabet")
    || (house == "sportingbet-diario" && source == "sportingbet")
    || (house != "esportiva-diario" && house != "sportingbet-diario" && source == house)
  }

  lemma {:induction false} OwnerIsFirst(links: seq<NetLink>, row: AggRow)
    ensures FoundFirst(links, (l: NetLink) => l.campaign == row.campaign && ReadsDataOf(l.house, row.house),
                       FindOwner(links, row))
  {
    var good := (l: NetLink) => l.campaign == row.campaign && ReadsDataOf(l.house, row.house);
    if links != [] {
      if good(links[0]) {
        FirstIsHead(links, good);
      } else {
        OwnerIsFirst(links[1..], row);
        FirstOfTail(links, good, FindOwner(links, row));
      }
    }
  }

  lemma {:induction false} HouseIsFirst(links: seq<NetLink>, house: string)
    ensures FoundFirst(links, (l: NetLink) => l.house == house, FindByHouse(links, house))
  {
    var good := (l: NetLink) => l.house == house;
    if links != [] {
      if good(links[0]) {
        FirstIsHead(links, good);
      } else {
        HouseIsFirst(links[1..], house);
        FirstOfTail(links, good, FindByHouse(links, house));
      }
    }
  }

  lemma {:induction false} RateKeyIsFirst(links: seq<NetLink>, dimension: DimensionOf, key: string)
    ensures FoundFirst(links, (l: NetLink) => RateKey(l, dimension) == key, FindByRateKey(links, dimension, key))
  {
    var good := (l: NetLink) => RateKey(l, dimension) == key;
    if links != [] {
      if good(links[0]) {
        FirstIsHead(links, good);
      } else {
        RateKeyIsFirst(links[1..], dimension, key);
        FirstOfTail(links, good, FindByRateKey(links, dimension, key));
      }
    }
  }

  // ----- Earnings -----

  /**
   A row pays its owner the full CPA rate per CPA and the percentage of its revenue; without an owner it pays nothing.
   */
  lemma OwnRowTerms(links: seq<NetLink>, row: AggRow, house: string)
    ensures var owner, j := FindOwner(links, row), OwnEntries(links, row);
            && SumAt(j, house, Cpa) ==
               (if owner.Some? && owner.value.house == house
                   then OrZero(owner.value.cpa) * (row.cpaQualified as real) else 0.0)
            && SumAt(j, house, Rev) ==
               (if owner.Some? && owner.value.house == house
                   then OrZero(owner.value.revshare) * row.revShare / 100.0 else 0.0)
            && (Mentioned(j, house) <==> owner.Some? && owner.value.house == house)
  {
    var owner := FindOwner(links, row);
    if owner.Some? {
      PercentOf(Rate(owner.value.revshare), row.revShare);
    }
  }

  lemma PercentOf(percent: real, amount: real)
    ensures RevAmount(percent, amount) == percent * amount / 100.0
  {
  }

  /**
   What a member's link is worth per unit: the head's own rate for an external member, else what it exceeds the anchor's
   by.
   */
  function PerUnit(external: bool, own: real, anchor: real): real {
    if external then own else if own > anchor then own - anchor else 0.0
  }

  function AnchorOf(rates: map<string, real>, key: string): real {
    if key in rates then rates[key] else 0.0
  }

  function OwnCpa(mine: seq<NetLink>, dimension: DimensionOf, key: string): real {
    match FindByRateKey(mine, dimension, key)
    case None => 0.0
    case Some(l) => OrZero(l.cpa)
  }

  function OwnRev(mine: seq<NetLink>, dimension: DimensionOf, key: string): real {
    match FindByRateKey(mine, dimension, key)
    case None => 0.0
    case Some(l) => OrZero(l.revshare)
  }

  function CpaPerUnit(mine: seq<NetLink>, m: Member, ml: NetLink, dimension: DimensionOf): real {
    var key := RateKey(ml, dimension);
    PerUnit(m.user.isExternal, OwnCpa(mine, dimension, key), AnchorOf(m.anchor.cpa, key))
  }

  function RevPerUnit(mine: seq<NetLink>, m: Member, ml: NetLink, dimension: DimensionOf): real {
    var key := RateKey(ml, dimension);
    PerUnit(m.user.isExternal, OwnRev(mine, dimension, key), AnchorOf(m.anchor.rev, key))
  }

  /** The figures of a member's link: those of its campaign at the house whose data it reads. */
  ghost predicate FiguresOf(agg: map<string, AggRow>, ml: NetLink, row: AggRow) {
    exists source :: ReadsDataOf(ml.house, source) && AggKey(ml.campaign, source) in agg
        && row == agg[AggKey(ml.campaign, source)]
  }

  lemma LinkTerms(mine: seq<NetLink>, m: Member, ml: NetLink, agg: map<string, AggRow>, dimension: DimensionOf,
                  row: AggRow, house: string)
    requires FiguresOf(agg, ml, row)
    ensures var j := LinkEntries(mine, m, ml, agg, dimension);
            var cpa, rev := CpaPerUnit(mine, m, ml, dimension), RevPerUnit(mine, m, ml, dimension);
            var paid := rev * row.revShare / 100.0;
            if house == ml.house && (cpa > 0.0 || rev > 0.0) then
              SumAt(j, house, NetworkCpa) == cpa * (row.cpaQualified as real) &&
              SumAt(j, house, NetworkRev) == if paid > 0.0 then paid else 0.0
            else
              SumAt(j, house, NetworkCpa) == 0.0 && SumAt(j, house, NetworkRev) == 0.0
  {
    PercentOf(RevPerUnit(mine, m, ml, dimension), row.revShare);
  }

  /** A member's link without figures pays nothing. */
  lemma NoFigures(mine: seq<NetLink>, m: Member, ml: NetLink, agg: map<string, AggRow>, dimension: DimensionOf)
    requires forall source | ReadsDataOf(ml.house, source) :: AggKey(ml.campaign, source) !in agg
    ensures LinkEntries(mine, m, ml, agg, dimension) == Empty
  {
    assert ReadsDataOf(ml.house, DataSourceHouse(ml.house));
  }

  // ----- Fraud -----

  /** One's own fraud costs the rate of one's first link in the house, per case. */
  lemma DirectFraudTerms(mine: seq<NetLink>, f: Fraud, house: string)
    ensures var link := FindByHouse(mine, f.house);
            var rate := if link.None? then 0.0 else OrZero(link.value.cpa);
            SumAt(DirectFraudEntries(mine, f), house, DirectFraud) ==
            if house == f.house && f.count > 0 then rate * (f.count as real) else 0.0
  {
  }

  /** What a case of fraud costs: what a CPA of the member's first link in the house pays, if that is positive. */
  function FraudPerCase(mine: seq<NetLink>, m: Member, house: string, dimension: DimensionOf): real {
    var rate :=
      match FindByHouse(m.user.links, house)
      case Some(ml) => CpaPerUnit(mine, m, ml, dimension)
      case None =>
        PerUnit(m.user.isExternal, if FindByHouse(mine, house).Some?
            then OrZero(FindByHouse(mine, house).value.cpa) else 0.0,
                AnchorOf(m.anchor.cpa, house));
    if rate > 0.0 then rate else 0.0
  }

  lemma FraudTerms(mine: seq<NetLink>, m: Member, f: Fraud, dimension: DimensionOf, house: string)
    ensures SumAt(MemberFraudEntries(mine, m, f, dimension), house, NetworkFraud) ==
            if house == f.house && f.count > 0 then FraudPerCase(mine, m, house, dimension) * (f.count as real) else 0.0
  {
  }

  /** `x` times `n`, as a sum. */
  function Times(x: real, n: nat): real {
    if n == 0 then 0.0 else Times(x, n - 1) + x
  }

  lemma {:induction false} TimesIs(x: real, n: nat)
    ensures Times(x, n) == x * (n as real)
  {
    if n > 0 {
      TimesIs(x, n - 1);
      assert x * (n as real) == x * ((n - 1) as real) + x;
    }
  }

  lemma {:induction false} TimesAdds(x: real, m: nat, n: nat)
    ensures Times(x, m + n) == Times(x, m) + Times(x, n)
  {
    if n > 0 {
      TimesAdds(x, m, n - 1);
    }
  }

  lemma {:induction false} TimesGrows(x: real, m: nat, n: nat)
    requires x >= 0.0 && m <= n
    ensures 0.0 <= Times(x, m) <= Times(x, n)
    decreases n
  {
    if m < n {
      TimesGrows(x, m, n - 1);
    } else if n > 0 {
      TimesGrows(x, m - 1, n - 1);
    }
  }

  function CasesOf(f: Fraud, house: string): nat {
    if f.house == house && f.count > 0 then f.count else 0
  }

  function Cases(frauds: seq<Fraud>, house: string, n: nat): nat
    requires n <= |frauds|
  {
    if n == 0 then 0 else Cases(frauds, house, n - 1) + CasesOf(frauds[n - 1], house)
  }

  lemma OneFraudTerms(mine: seq<NetLink>, m: Member, f: Fraud, dimension: DimensionOf, house: string)
    ensures SumAt(MemberFraudEntries(mine, m, f, dimension), house, NetworkFraud) ==
            Times(FraudPerCase(mine, m, house, dimension), CasesOf(f, house))
  {
    FraudTerms(mine, m, f, dimension, house);
    TimesIs(FraudPerCase(mine, m, house, dimension), CasesOf(f, house));
  }

  lemma NextFraud(mine: seq<NetLink>, m: Member, dimension: DimensionOf, house: string, n: nat)
    requires n < |m.user.frauds|
    ensures SumAt(MemberFraudPostings(mine, m, dimension, n + 1), house, NetworkFraud) ==
            SumAt(MemberFraudPostings(mine, m, dimension, n), house, NetworkFraud)
            + Times(FraudPerCase(mine, m, house, dimension), CasesOf(m.user.frauds[n], house))
  {
    OneFraudTerms(mine, m, m.user.frauds[n], dimension, house);
  }

  /** All fraud of a member in a house costs the same per case. */
  lemma {:induction false} MemberFraudTerms(mine: seq<NetLink>, m: Member, dimension: DimensionOf, house: string,
                                            n: nat, rate: real)
    requires n <= |m.user.frauds| && rate == FraudPerCase(mine, m, house, dimension)
    ensures SumAt(MemberFraudPostings(mine, m, dimension, n), house, NetworkFraud) ==
        Times(rate, Cases(m.user.frauds, house, n))
  {
    if n > 0 {
      MemberFraudTerms(mine, m, dimension, house, n - 1, rate);
      NextFraud(mine, m, dimension, house, n - 1);
      TimesAdds(rate, Cases(m.user.frauds, house, n - 1), CasesOf(m.user.frauds[n - 1], house));
    }
  }

  /** Counts and the head's own rates are not negative. */
  ghost predicate NothingNegative(mine: seq<NetLink>, agg: map<string, AggRow>) {
    && (forall l | l in mine :: OrZero(l.cpa) >= 0.0)
    && (forall k | k in agg :: agg[k].cpaQualified >= 0)
  }

  lemma {:induction false} RateNotNegative(mine: seq<NetLink>, agg: map<string, AggRow>, dimension: DimensionOf,
                                           key: string)
    requires NothingNegative(mine, agg)
    ensures OwnCpa(mine, dimension, key) >= 0.0
  {
    if mine != [] {
      assert mine[0] in mine;
      assert NothingNegative(mine[1..], agg);
      RateNotNegative(mine[1..], agg, dimension, key);
    }
  }

  /** What a member's link pays is never negative. */
  lemma LinkPaysAtLeast(mine: seq<NetLink>, m: Member, ml: NetLink, agg: map<string, AggRow>, dimension: DimensionOf,
                        house: string)
    requires NothingNegative(mine, agg)
    ensures SumAt(LinkEntries(mine, m, ml, agg, dimension), house, NetworkCpa) >= 0.0
  {
    RateNotNegative(mine, agg, dimension, RateKey(ml, dimension));
    var rate, k := CpaPerUnit(mine, m, ml, dimension), AggKey(ml.campaign, DataSourceHouse(ml.house));
    if k in agg {
      assert FiguresOf(agg, ml, agg[k]) by {
        assert ReadsDataOf(ml.house, DataSourceHouse(ml.house));
      }
      LinkTerms(mine, m, ml, agg, dimension, agg[k], house);
      assert rate * (agg[k].cpaQualified as real) >= 0.0;
    }
  }

  lemma LinkPaysPerCpa(mine: seq<NetLink>, m: Member, ml: NetLink, agg: map<string, AggRow>, dimension: DimensionOf,
                       row: AggRow, rate: real)
    requires FiguresOf(agg, ml, row) && row.cpaQualified >= 0 && rate == CpaPerUnit(mine, m, ml, dimension)
        && rate >= 0.0
    ensures SumAt(LinkEntries(mine, m, ml, agg, dimension), ml.house, NetworkCpa) == Times(rate, row.cpaQualified)
  {
    LinkTerms(mine, m, ml, agg, dimension, row, ml.house);
    TimesIs(rate, row.cpaQualified);
    TimesNothing(row.cpaQualified);
  }

  lemma {:induction false} TimesNothing(n: nat)
    ensures Times(0.0, n) == 0.0
  {
    if n > 0 {
      TimesNothing(n - 1);
    }
  }

  /** Fraud is clawed back at the rate at which CPAs of the member's link are paid, however many they are. */
  lemma ClawedBackAsPaid(mine: seq<NetLink>, m: Member, f: Fraud, ml: NetLink, dimension: DimensionOf)
    returns (rate: real)
    requires FindByHouse(m.user.links, f.house) == Some(ml) && f.count > 0 && CpaPerUnit(mine, m, ml, dimension) >= 0.0
    ensures SumAt(MemberFraudEntries(mine, m, f, dimension), f.house, NetworkFraud) == Times(rate, f.count)
    ensures forall agg, row | FiguresOf(agg, ml, row) && row.cpaQualified >= 0 ::
              SumAt(LinkEntries(mine, m, ml, agg, dimension), f.house, NetworkCpa) == Times(rate, row.cpaQualified)
  {
    rate := CpaPerUnit(mine, m, ml, dimension);
    var at := FirstAt(m.user.links, f.house);
    OneFraudTerms(mine, m, f, dimension, f.house);
    forall agg, row | FiguresOf(agg, ml, row) && row.cpaQualified >= 0
      ensures SumAt(LinkEntries(mine, m, ml, agg, dimension), f.house, NetworkCpa) == Times(rate, row.cpaQualified)
    {
      LinkPaysPerCpa(mine, m, ml, agg, dimension, row, rate);
    }
  }

  lemma NextLink(mine: seq<NetLink>, m: Member, agg: map<string, AggRow>, dimension: DimensionOf, house: string, n: nat)
    requires n < |m.user.links|
    ensures SumAt(MemberPostings(mine, m, agg, dimension, n + 1), house, NetworkCpa) ==
            SumAt(MemberPostings(mine, m, agg, dimension, n), house, NetworkCpa)
            + SumAt(LinkEntries(mine, m, m.user.links[n], agg, dimension), house, NetworkCpa)
  {
  }

  /** Running totals of amounts that are not negative reach each of them. */
  lemma {:induction false} TotalsReach(totals: seq<real>, amounts: seq<real>, n: nat, at: nat)
    requires n <= |amounts| && |totals| == |amounts| + 1 && totals[0] == 0.0
    requires forall i | 0 <= i < |amounts| :: amounts[i] >= 0.0 && totals[i + 1] == totals[i] + amounts[i]
    ensures totals[n] >= if at < n then amounts[at] else 0.0
  {
    if n > 0 {
      TotalsReach(totals, amounts, n - 1, at);
    }
  }

  function LinkPaid(mine: seq<NetLink>, m: Member, agg: map<string, AggRow>, dimension: DimensionOf, house: string,
                    i: nat): real
    requires i < |m.user.links|
  {
    SumAt(LinkEntries(mine, m, m.user.links[i], agg, dimension), house, NetworkCpa)
  }

  function MemberPaid(mine: seq<NetLink>, m: Member, agg: map<string, AggRow>, dimension: DimensionOf, house: string,
                      n: nat): real
    requires n <= |m.user.links|
  {
    SumAt(MemberPostings(mine, m, agg, dimension, n), house, NetworkCpa)
  }

  lemma NextPaid(mine: seq<NetLink>, m: Member, agg: map<string, AggRow>, dimension: DimensionOf, house: string, i: nat)
    requires i < |m.user.links| && NothingNegative(mine, agg)
    ensures LinkPaid(mine, m, agg, dimension, house, i) >= 0.0
    ensures MemberPaid(mine, m, agg, dimension, house, i + 1) ==
            MemberPaid(mine, m, agg, dimension, house, i) + LinkPaid(mine, m, agg, dimension, house, i)
  {
    NextLink(mine, m, agg, dimension, house, i);
    LinkPaysAtLeast(mine, m, m.user.links[i], agg, dimension, house);
  }

  /** A member pays at least what any one of the links pays. */
  lemma MemberPaysAtLeast(mine: seq<NetLink>, m: Member, agg: map<string, AggRow>, dimension: DimensionOf,
                          house: string, at: nat)
    requires NothingNegative(mine, agg)
    ensures MemberPaid(mine, m, agg, dimension, house, |m.user.links|) >=
            if at < |m.user.links| then LinkPaid(mine, m, agg, dimension, house, at) else 0.0
  {
    var n := |m.user.links|;
    var amounts := seq(n, i requires 0 <= i < n => LinkPaid(mine, m, agg, dimension, house, i));
    var totals := seq(n + 1, i requires 0 <= i <= n => MemberPaid(mine, m, agg, dimension, house, i));
    forall i | 0 <= i < n
      ensures amounts[i] >= 0.0 && totals[i + 1] == totals[i] + amounts[i]
    {
      NextPaid(mine, m, agg, dimension, house, i);
    }
    assert totals[0] == 0.0;
    TotalsReach(totals, amounts, n, at);
  }

  /** The member's first link in the house was paid for at least as many CPAs as there is fraud. */
  ghost predicate Covered(m: Member, agg: map<string, AggRow>, house: string) {
    var cases := Cases(m.user.frauds, house, |m.user.frauds|);
    cases == 0 ||
    (FindByHouse(m.user.links, house).Some? && exists row ::
     FiguresOf(agg, FindByHouse(m.user.links, house).value, row) && cases <= row.cpaQualified)
  }

  /** From one member, covered fraud in a house never costs more than the member's links there paid. */
  lemma MemberFraudIsCovered(mine: seq<NetLink>, m: Member, agg: map<string, AggRow>, dimension: DimensionOf,
                             house: string)
    requires NothingNegative(mine, agg) && Covered(m, agg, house)
    ensures SumAt(MemberFraudPostings(mine, m, dimension, |m.user.frauds|), house, NetworkFraud) <=
            MemberPaid(mine, m, agg, dimension, house, |m.user.links|)
  {
    var cases, rate := Cases(m.user.frauds, house, |m.user.frauds|), FraudPerCase(mine, m, house, dimension);
    MemberFraudTerms(mine, m, dimension, house, |m.user.frauds|, rate);
    if cases == 0 {
      MemberPaysAtLeast(mine, m, agg, dimension, house, |m.user.links|);
    } else {
      var at := CoveredByLink(mine, m, agg, dimension, house, cases, rate);
      MemberPaysAtLeast(mine, m, agg, dimension, house, at);
    }
  }

  lemma CoveredByLink(mine: seq<NetLink>, m: Member, agg: map<string, AggRow>, dimension: DimensionOf, house: string,
                      cases: nat, rate: real)
    returns (at: nat)
    requires NothingNegative(mine, agg) && Covered(m, agg, house) && cases > 0
    requires cases == Cases(m.user.frauds, house, |m.user.frauds|) && rate == FraudPerCase(mine, m, house, dimension)
    ensures at < |m.user.links| && Times(rate, cases) <= LinkPaid(mine, m, agg, dimension, house, at)
  {
    var ml := FindByHouse(m.user.links, house).value;
    var row :| FiguresOf(agg, ml, row) && cases <= row.cpaQualified;
    at := FirstAt(m.user.links, house);
    RateNotNegative(mine, agg, dimension, RateKey(ml, dimension));
    LinkPaysPerCpa(mine, m, ml, agg, dimension, row, CpaPerUnit(mine, m, ml, dimension));
    TimesGrows(rate, cases, row.cpaQualified);
  }

  lemma FirstAt(links: seq<NetLink>, house: string) returns (at: nat)
    requires FindByHouse(links, house).Some?
    ensures at < |links| && links[at] == FindByHouse(links, house).value && links[at].house == house
  {
    HouseIsFirst(links, house);
    at :| IsFirst(links, at, (l: NetLink) => l.house == house) && links[at] == FindByHouse(links, house).value;
  }

  lemma NextMemberPaid(mine: seq<NetLink>, members: seq<Member>, agg: map<string, AggRow>, dimension: DimensionOf,
                       house: string, n: nat)
    requires n < |members|
    ensures SumAt(NetworkPostings(mine, members, agg, dimension, n + 1), house, NetworkCpa) ==
            SumAt(NetworkPostings(mine, members, agg, dimension, n), house, NetworkCpa)
            + MemberPaid(mine, members[n], agg, dimension, house, |members[n].user.links|)
  {
  }

  lemma NextMemberCharged(mine: seq<NetLink>, members: seq<Member>, dimension: DimensionOf, house: string, n: nat)
    requires n < |members|
    ensures SumAt(NetworkFraudPostings(mine, members, dimension, n + 1), house, NetworkFraud) ==
            SumAt(NetworkFraudPostings(mine, members, dimension, n), house, NetworkFraud)
            + SumAt(MemberFraudPostings(mine, members[n], dimension, |members[n].user.frauds|), house, NetworkFraud)
  {
  }

  function NetworkPaid(mine: seq<NetLink>, members: seq<Member>, agg: map<string, AggRow>, dimension: DimensionOf,
                       house: string, n: nat): real
    requires n <= |members|
  {
    SumAt(NetworkPostings(mine, members, agg, dimension, n), house, NetworkCpa)
  }

  function NetworkCharged(mine: seq<NetLink>, members: seq<Member>, dimension: DimensionOf, house: string, n: nat): real
    requires n <= |members|
  {
    SumAt(NetworkFraudPostings(mine, members, dimension, n), house, NetworkFraud)
  }

  lemma NextMemberCovered(mine: seq<NetLink>, members: seq<Member>, agg: map<string, AggRow>, dimension: DimensionOf,
                          house: string, n: nat)
    requires n < |members| && NothingNegative(mine, agg) && Covered(members[n], agg, house)
    requires NetworkCharged(mine, members, dimension, house, n) <= NetworkPaid(mine, members, agg, dimension, house, n)
    ensures NetworkCharged(mine, members, dimension, house, n + 1) <=
            NetworkPaid(mine, members, agg, dimension, house, n + 1)
  {
    NextMemberPaid(mine, members, agg, dimension, house, n);
    NextMemberCharged(mine, members, dimension, house, n);
    MemberFraudIsCovered(mine, members[n], agg, dimension, house);
  }

  /** All members together, too. */
  lemma {:induction false} NetworkFraudIsCovered(mine: seq<NetLink>, members: seq<Member>, agg: map<string, AggRow>,
                                                 dimension: DimensionOf, house: string, n: nat)
    requires n <= |members| && NothingNegative(mine, agg) && forall m | m in members :: Covered(m, agg, house)
    ensures NetworkCharged(mine, members, dimension, house, n) <= NetworkPaid(mine, members, agg, dimension, house, n)
  {
    if n == 0 {
      NothingYet(mine, members, agg, dimension, house);
    } else {
      NetworkFraudIsCovered(mine, members, agg, dimension, house, n - 1);
      NextMemberCovered(mine, members, agg, dimension, house, n - 1);
    }
  }

  lemma NothingYet(mine: seq<NetLink>, members: seq<Member>, agg: map<string, AggRow>, dimension: DimensionOf,
                   house: string)
    ensures NetworkCharged(mine, members, dimension, house, 0) == 0.0
    ensures NetworkPaid(mine, members, agg, dimension, house, 0) == 0.0
  {
  }

  // ----- Every column comes from its own step -----

  lemma {:induction false} NothingElsewhereAt(j: Journal, c1: Column, c2: Column, house: string, c: Column)
    requires Confined(j, c1, c2) && c != c1 && c != c2
    ensures SumAt(j, house, c) == 0.0
  {
    if j.Both? {
      NothingElsewhereAt(j.first, c1, c2, house, c);
      NothingElsewhereAt(j.second, c1, c2, house, c);
    }
  }

  lemma {:induction false} OwnConfined(links: seq<NetLink>, rows: seq<AggRow>, n: nat)
    requires n <= |rows|
    ensures Confined(OwnPostings(links, rows, n), Cpa, Rev)
  {
    if n > 0 {
      OwnConfined(links, rows, n - 1);
    }
  }

  lemma {:induction false} OpenConfined(q: Query, links: seq<NetLink>, n: nat)
    requires n <= |links|
    ensures forall c1, c2 :: Confined(OpenPostings(q, links, n), c1, c2)
  {
    if n > 0 {
      OpenConfined(q, links, n - 1);
    }
  }

  lemma {:induction false} MemberConfined(mine: seq<NetLink>, m: Member, agg: map<string, AggRow>,
                                          dimension: DimensionOf, n: nat)
    requires n <= |m.user.links|
    ensures Confined(MemberPostings(mine, m, agg, dimension, n), NetworkCpa, NetworkRev)
  {
    if n > 0 {
      MemberConfined(mine, m, agg, dimension, n - 1);
    }
  }

  lemma {:induction false} NetworkConfined(mine: seq<NetLink>, members: seq<Member>, agg: map<string, AggRow>,
                                           dimension: DimensionOf, n: nat)
    requires n <= |members|
    ensures Confined(NetworkPostings(mine, members, agg, dimension, n), NetworkCpa, NetworkRev)
  {
    if n > 0 {
      NetworkConfined(mine, members, agg, dimension, n - 1);
      MemberConfined(mine, members[n - 1], agg, dimension, |members[n - 1].user.links|);
    }
  }

  lemma {:induction false} DirectFraudConfined(mine: seq<NetLink>, frauds: seq<Fraud>, n: nat)
    requires n <= |frauds|
    ensures Confined(DirectFraudPostings(mine, frauds, n), DirectFraud, DirectFraud)
  {
    if n > 0 {
      DirectFraudConfined(mine, frauds, n - 1);
    }
  }

  lemma {:induction false} MemberFraudConfined(mine: seq<NetLink>, m: Member, dimension: DimensionOf, n: nat)
    requires n <= |m.user.frauds|
    ensures Confined(MemberFraudPostings(mine, m, dimension, n), NetworkFraud, NetworkFraud)
  {
    if n > 0 {
      MemberFraudConfined(mine, m, dimension, n - 1);
    }
  }

  lemma {:induction false} NetworkFraudConfined(mine: seq<NetLink>, members: seq<Member>, dimension: DimensionOf,
                                                n: nat)
    requires n <= |members|
    ensures Confined(NetworkFraudPostings(mine, members, dimension, n), NetworkFraud, NetworkFraud)
  {
    if n > 0 {
      NetworkFraudConfined(mine, members, dimension, n - 1);
      MemberFraudConfined(mine, members[n - 1], dimension, |members[n - 1].user.frauds|);
    }
  }

  lemma {:induction false} AdjustmentConfined(q: Query, adjustments: seq<Adjustment>, n: nat)
    requires n <= |adjustments|
    ensures Confined(AdjustmentPostings(q, adjustments, n), Adjusted, Adjusted)
  {
    if n > 0 {
      AdjustmentConfined(q, adjustments, n - 1);
    }
  }

  /** A house's column holds what the one step for it posts there. */
  lemma ColumnsComeFrom(self: Self, members: seq<Member>, data: seq<DataRow>, st: Settings, q: Query,
                        dimension: DimensionOf, house: string, c: Column)
    requires c != Total
    ensures var ps := Postings(self, members, data, st, q, dimension);
            var own, network := OwnRows(self.links, data, st, q), NetworkRows(self.links, members, data, st, q);
            SumAt(ps, house, c) ==
            match c
            case Cpa => SumAt(OwnPostings(self.links, own, |own|), house, Cpa)
            case Rev => SumAt(OwnPostings(self.links, own, |own|), house, Rev)
            case NetworkCpa => SumAt(NetworkPostings(self.links, members, AggMap(network, |network|), dimension,
                                                     |members|), house, NetworkCpa)
            case NetworkRev => SumAt(NetworkPostings(self.links, members, AggMap(network, |network|), dimension,
                                                     |members|), house, NetworkRev)
            case DirectFraud => SumAt(DirectFraudPostings(self.links, self.frauds, |self.frauds|), house, DirectFraud)
            case NetworkFraud => SumAt(NetworkFraudPostings(self.links, members, dimension, |members|), house,
                                       NetworkFraud)
            case Adjusted => SumAt(AdjustmentPostings(q, self.adjustments, |self.adjustments|), house, Adjusted)
            case Total => 0.0
  {
    var own, network, links := OwnRows(self.links, data, st, q), NetworkRows(self.links, members, data, st, q),
        AllLinks(members);
    var agg := AggMap(network, |network|);
    var o1, o2 := OpenPostings(q, self.links, |self.links|), OpenPostings(q, links, |links|);
    var e1, e2 := OwnPostings(self.links, own, |own|), NetworkPostings(self.links, members, agg, dimension, |members|);
    var d1, d2 := DirectFraudPostings(self.links, self.frauds, |self.frauds|),
        NetworkFraudPostings(self.links, members, dimension, |members|);
    var d3 := AdjustmentPostings(q, self.adjustments, |self.adjustments|);
    OpenConfined(q, self.links, |self.links|);
    OpenConfined(q, links, |links|);
    NothingElsewhereAt(o1, Total, Total, house, c);
    NothingElsewhereAt(o2, Total, Total, house, c);
    OwnConfined(self.links, own, |own|);
    NetworkConfined(self.links, members, agg, dimension, |members|);
    DirectFraudConfined(self.links, self.frauds, |self.frauds|);
    NetworkFraudConfined(self.links, members, dimension, |members|);
    AdjustmentConfined(q, self.adjustments, |self.adjustments|);
    if c != Cpa && c != Rev { NothingElsewhereAt(e1, Cpa, Rev, house, c); }
    if c != NetworkCpa && c != NetworkRev { NothingElsewhereAt(e2, NetworkCpa, NetworkRev, house, c); }
    if c != DirectFraud { NothingElsewhereAt(d1, DirectFraud, DirectFraud, house, c); }
    if c != NetworkFraud { NothingElsewhereAt(d2, NetworkFraud, NetworkFraud, house, c); }
    if c != Adjusted { NothingElsewhereAt(d3, Adjusted, Adjusted, house, c); }
    SevenParts(o1, e1, o2, e2, d1, d2, d3, house, c);
  }

  lemma SevenParts(j1: Journal, j2: Journal, j3: Journal, j4: Journal, j5: Journal, j6: Journal, j7: Journal,
                   house: string, c: Column)
    ensures SumAt(Both(Both(Both(Both(Both(Both(j1, j2), j3), j4), j5), j6), j7), house, c) ==
            SumAt(j1, house, c) + SumAt(j2, house, c) + SumAt(j3, house, c) + SumAt(j4, house, c) + SumAt(j5, house, c)
            + SumAt(j6, house, c) + SumAt(j7, house, c)
  {
    assert SumAt(Both(Both(Both(j1, j2), j3), j4), house, c) ==
           SumAt(j1, house, c) + SumAt(j2, house, c) + SumAt(j3, house, c) + SumAt(j4, house, c) by {
      assert SumAt(Both(Both(j1, j2), j3), house, c) == SumAt(j1, house, c) + SumAt(j2, house, c) + SumAt(j3, house, c);
    }
    assert SumAt(Both(Both(Both(Both(Both(j1, j2), j3), j4), j5), j6), house, c) ==
           SumAt(Both(Both(Both(j1, j2), j3), j4), house, c) + SumAt(j5, house, c) + SumAt(j6, house, c);
  }

  /** In no house of a report does covered fraud in the network cost more than the network's CPAs paid. */
  lemma FraudNeverExceedsEarnings(r: Report, self: Self, members: seq<Member>, data: seq<DataRow>, st: Settings,
                                  q: Query, dimension: DimensionOf, h: HouseBalance)
    requires Accounted(r, self, st, q, Postings(self, members, data, st, q, dimension)) && h in r.perHouse
    requires var network := NetworkRows(self.links, members, data, st, q);
             var agg := AggMap(network, |network|);
             NothingNegative(self.links, agg) && forall m | m in members :: Covered(m, agg, h.house)
    ensures h.networkFraudDeduction <= h.networkCpa
  {
    var network, ps := NetworkRows(self.links, members, data, st, q), Postings(self, members, data, st, q, dimension);
    NetworkFraudIsCovered(self.links, members, AggMap(network, |network|), dimension, h.house, |members|);
    ColumnsComeFrom(self, members, data, st, q, dimension, h.house, NetworkCpa);
    ColumnsComeFrom(self, members, data, st, q, dimension, h.house, NetworkFraud);
    assert h.Get(NetworkCpa) == SumAt(ps, h.house, NetworkCpa)
        && h.Get(NetworkFraud) == SumAt(ps, h.house, NetworkFraud);
  }
}
