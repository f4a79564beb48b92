/**
 The tables behind the link pools and the database calls that the assignment services make:
 the reads, and the transaction that gives a campaign to a user and closes the request.

 Two houses draw from one family of campaigns: `betano` and `betano-diario`, or `esportivabet`
 and `esportiva-diario`.  A `Db` holds the rows of one family.
 */
module LinkPool {
  import opened Basics

  const LOCK_TTL_MS := 30_000
  const BACKOFF_DELAYS_MS: seq<nat> := [200, 400, 800, 1600, 3200]
  const ESPORTIVA_CAMPAIGN_PREFIX := "MJM COMPANY - "
  const MARKED_STATUS := "marcado"

  datatype Family = Betano | Esportiva

  datatype House = Regular | Daily

  datatype Commission = Commission(cpa: real, revshare: real)

  datatype Link = Link(user: string, house: House, campaign: string, affiliateId: string,
                       cpa: Option<real>, revshare: Option<real>, userLink: Option<string>, active: bool)

  datatype Status = Pending | Fulfilled | Closed

  datatype Request = Request(user: string, status: Status, url: string)

  /** A link's identifier is its position; rows are appended and soft-deleted, never removed. */
  datatype Db = Db(links: seq<Link>, requests: map<string, Request>, emails: map<string, string>)

  /** One spreadsheet row.  `ids` is what URL parsing finds in `link`: the pair (siteid, c), if any. */
  datatype Row = Row(rowIndex: nat, id: string, link: string, ids: Option<(string, string)>,
                     status: string, email: string)

  datatype Target = Target(campaign: string, affiliateId: string)

  /** The arguments of one `tryAssign` call. */
  datatype Job = Job(family: Family, house: House, user: string, request: string, default: Option<Commission>)

  datatype Reason =
    LockBusy | RequestNotFound | AlreadyFulfilled | CommissionNotSet | SheetReadFailed | PoolEmpty | AllConflicts

  datatype Result =
    | Assigned(campaign: string, affiliateId: string, link: string, rowIndex: nat, email: string)
    | NotAssigned(reason: Reason)
    | Threw

  // ----- Rows -----

  predicate IsFree(family: Family, row: Row) {
    row.status == "" && row.email == "" && row.link != "" && (family.Esportiva? ==> row.id != "")
  }

  function Candidates(family: Family, rows: seq<Row>): seq<Row> {
    if rows == [] then []
    else (if IsFree(family, rows[0]) then [rows[0]] else []) + Candidates(family, rows[1..])
  }

  /** The campaign a row stands for; `None` for a malformed Betano URL. */
  function TargetOf(family: Family, row: Row): Option<Target> {
    match family
    case Betano =>
      if row.ids.Some? then Some(Target(row.ids.value.0 + "-" + row.ids.value.1, row.ids.value.0)) else None
    case Esportiva => Some(Target(ESPORTIVA_CAMPAIGN_PREFIX + Trim(row.id), ""))
  }

  // ----- Reads -----

  predicate ActiveFor(db: Db, i: nat, user: string, house: House) {
    i < |db.links| && db.links[i].active && db.links[i].user == user && db.links[i].house == house
  }

  /** An active link of the user in this house with both rates set. */
  predicate HasCommission(db: Db, user: string, house: House) {
    exists i: nat | i < |db.links| ::
      ActiveFor(db, i, user, house) && db.links[i].cpa.Some? && db.links[i].revshare.Some?
  }

  /**
   `findFirst` without an order: any active link of the user in this house may come back.
   `hint` stands for the database's choice.
   */
  function FindLink(db: Db, user: string, house: House, hint: nat): (r: Option<nat>)
    ensures r.Some? ==> ActiveFor(db, r.value, user, house)
    ensures r.None? ==> forall i: nat | i < |db.links| :: !ActiveFor(db, i, user, house)
  {
    if ActiveFor(db, hint, user, house) then Some(hint) else LowestLink(db, user, house, 0)
  }

  function LowestLink(db: Db, user: string, house: House, from: nat): (r: Option<nat>)
    requires from <= |db.links|
    ensures r.Some? ==> ActiveFor(db, r.value, user, house)
    ensures r.None? ==> forall i: nat | from <= i < |db.links| :: !ActiveFor(db, i, user, house)
    decreases |db.links| - from
  {
    if from == |db.links| then None
    else if ActiveFor(db, from, user, house) then Some(from)
    else LowestLink(db, user, house, from + 1)
  }

  /** The pre-check: does another active link of either house of the family carry the campaign? */
  predicate Conflicts(db: Db, campaign: string, own: Option<nat>) {
    exists i: nat | i < |db.links| ::
      db.links[i].active && db.links[i].campaign == campaign && own != Some(i)
  }

  // ----- The transaction -----

  datatype Outcome = Committed(db: Db) | NoLongerPending | IndexCollision | RequestMissing

  /** Would writing `campaign` into link `own` (or a new link) break the partial unique index? */
  predicate Collides(db: Db, house: House, campaign: string, own: Option<nat>) {
    exists i: nat | i < |db.links| ::
      db.links[i].active && db.links[i].house == house && db.links[i].campaign == campaign && own != Some(i)
  }

  function CommissionToWrite(job: Job, applyDefault: bool): Option<Commission> {
    match job.family
    case Betano => if applyDefault then job.default else None
    case Esportiva => job.default
  }

  function UserLinkToWrite(job: Job, row: Row): Option<string> {
    if job.family.Betano? && job.house.Daily? then Some(row.link) else None
  }

  function WriteLink(db: Db, job: Job, applyDefault: bool, row: Row, target: Target, own: Option<nat>): (r: Db)
    requires own.Some? ==> own.value < |db.links|
  {
    var rates := CommissionToWrite(job, applyDefault);
    var shared := UserLinkToWrite(job, row);
    if own.Some? then
      var link := db.links[own.value];
      var updated := link.(campaign := target.campaign, affiliateId := target.affiliateId,
      cpa := if rates.Some? then Some(rates.value.cpa) else link.cpa,
      revshare := if rates.Some? then Some(rates.value.revshare) else link.revshare,
      userLink := if shared.Some? then shared else link.userLink);
      db.(links := db.links[own.value := updated])
    else
      db.(links := db.links + [Link(job.user, job.house, target.campaign, target.affiliateId,
                                    if rates.Some? then Some(rates.value.cpa) else None,
                                    if rates.Some? then Some(rates.value.revshare) else None,
                                    shared, true)])
  }

  /** The whole transaction, applied atomically. */
  function Transact(db: Db, job: Job, applyDefault: bool, row: Row, target: Target, hint: nat): Outcome {
    if job.family.Esportiva? && (job.request !in db.requests || !db.requests[job.request].status.Pending?) then
      NoLongerPending
    else
      var own := FindLink(db, job.user, job.house, hint);
      if Collides(db, job.house, target.campaign, own) then IndexCollision
      else if job.request !in db.requests then RequestMissing
      else
        var written := WriteLink(db, job, applyDefault, row, target, own);
        Committed(written.(requests := written.requests[job.request :=
                                                          written.requests[job.request].(status := Fulfilled,
                                                              url := row.link)]))
  }

  // ----- What the transaction keeps -----

  /** The partial unique index: active links of one house carry distinct campaigns. */
  predicate HouseUnique(db: Db) {
    forall i: nat, j: nat | i < j < |db.links| && db.links[i].active && db.links[j].active ::
      db.links[i].house == db.links[j].house ==> db.links[i].campaign != db.links[j].campaign
  }

  /** The promise of the family: no campaign is active twice across both houses. */
  predicate FamilyUnique(db: Db) {
    forall i: nat, j: nat | i < j < |db.links| && db.links[i].active && db.links[j].active ::
      db.links[i].campaign != db.links[j].campaign
  }

  /** A user has at most one active link per house. */
  predicate OneLinkPerUser(db: Db) {
    forall i: nat, j: nat | i < j < |db.links| && db.links[i].active && db.links[j].active ::
      db.links[i].house == db.links[j].house ==> db.links[i].user != db.links[j].user
  }

  function OtherHouse(house: House): House {
    if house.Regular? then Daily else Regular
  }

  /** No active link of `house` carries the campaign. */
  predicate FreeIn(db: Db, house: House, campaign: string) {
    forall i: nat | i < |db.links| :: db.links[i].active && db.links[i].house == house ==>
        db.links[i].campaign != campaign
  }

  /** The unique index holds after every transaction, whatever was read before it. */
  lemma TransactKeepsHouseUnique(db: Db, job: Job, applyDefault: bool, row: Row, target: Target, hint: nat)
    requires HouseUnique(db)
    requires Transact(db, job, applyDefault, row, target, hint).Committed?
    ensures HouseUnique(Transact(db, job, applyDefault, row, target, hint).db)
  {
    var own := FindLink(db, job.user, job.house, hint);
    assert !Collides(db, job.house, target.campaign, own);
  }

  /** Together with a campaign that is free in the other house, the index gives uniqueness in the family. */
  lemma TransactKeepsFamilyUnique(db: Db, job: Job, applyDefault: bool, row: Row, target: Target, hint: nat)
    requires FamilyUnique(db) && FreeIn(db, OtherHouse(job.house), target.campaign)
    requires Transact(db, job, applyDefault, row, target, hint).Committed?
    ensures FamilyUnique(Transact(db, job, applyDefault, row, target, hint).db)
  {
    var own := FindLink(db, job.user, job.house, hint);
    assert !Collides(db, job.house, target.campaign, own);
  }

  lemma TransactKeepsOneLinkPerUser(db: Db, job: Job, applyDefault: bool, row: Row, target: Target, hint: nat)
    requires OneLinkPerUser(db)
    requires Transact(db, job, applyDefault, row, target, hint).Committed?
    ensures OneLinkPerUser(Transact(db, job, applyDefault, row, target, hint).db)
  {
    var own := FindLink(db, job.user, job.house, hint);
    var db' := Transact(db, job, applyDefault, row, target, hint).db;
    forall i: nat, j: nat | i < j < |db'.links| && db'.links[i].active && db'.links[j].active
      ensures db'.links[i].house == db'.links[j].house ==> db'.links[i].user != db'.links[j].user
    {
      assert own.None? ==> !ActiveFor(db, i, job.user, job.house);
    }
  }

  /** The pre-check clears the other house even if `own` is excluded, because `own` is in this house. */
  lemma NoConflictFreesOtherHouse(db: Db, job: Job, campaign: string, own: Option<nat>)
    requires own.Some? ==> own.value < |db.links| && db.links[own.value].house == job.house
    requires !Conflicts(db, campaign, own)
    ensures FreeIn(db, OtherHouse(job.house), campaign)
  {
  }

  /**
   Link `id` is what an approved request promises: active, with the row's campaign, and the request closed with its URL.
   */
  predicate Delivered(db: Db, job: Job, id: nat, campaign: string, url: string) {
    && ActiveFor(db, id, job.user, job.house)
    && db.links[id].campaign == campaign
    && job.request in db.requests
    && db.requests[job.request].status == Fulfilled
    && db.requests[job.request].url == url
  }

  predicate Rated(db: Db, id: nat) {
    id < |db.links| && db.links[id].cpa.Some? && db.links[id].revshare.Some?
  }

  /**
   The rates of link `id` after a commit: the default's if it is applied, which Esportiva does whenever there is one;
   else those the link already had, none on a new link.
   */
  predicate RatesWritten(before: Db, after: Db, job: Job, applyDefault: bool, id: nat)
    requires id < |after.links|
  {
    var link := after.links[id];
    if job.default.Some? && (job.family.Esportiva? || applyDefault) then
      link.cpa == Some(job.default.value.cpa) && link.revshare == Some(job.default.value.revshare)
    else if id < |before.links| then
      link.cpa == before.links[id].cpa && link.revshare == before.links[id].revshare
    else
      link.cpa == None && link.revshare == None
  }

  /** The affiliate id is the target's; only Betano Diário stores the row's URL with the link. */
  predicate IdsWritten(before: Db, after: Db, job: Job, target: Target, url: string, id: nat)
    requires id < |after.links|
  {
    var link := after.links[id];
    && link.affiliateId == target.affiliateId
    && (job.family.Betano? && job.house.Daily? ==> link.userLink == Some(url))
    && (job.family.Esportiva? || job.house.Regular? ==>
          link.userLink == if id < |before.links| then before.links[id].userLink else None)
  }

  /** The request is closed; no other link, request or e-mail changes. */
  ghost predicate NothingElse(before: Db, after: Db, request: string, id: nat) {
    && (forall i: nat | i < |after.links| && i != id :: i < |before.links| && after.links[i] == before.links[i])
    && after.emails == before.emails && after.requests.Keys == before.requests.Keys
    && (forall r | r in before.requests && r != request :: after.requests[r] == before.requests[r])
    && (request in before.requests ==> after.requests[request].user == before.requests[request].user)
  }

  /** The link a transaction writes: one of the user's active links in the house, or a new one if there is none. */
  function WrittenLink(db: Db, job: Job, hint: nat): (id: nat)
    ensures ActiveFor(db, id, job.user, job.house)
        || (id == |db.links| && forall i: nat | i < |db.links| :: !ActiveFor(db, i, job.user, job.house))
  {
    var own := FindLink(db, job.user, job.house, hint);
    if own.Some? then own.value else |db.links|
  }

  /** What a committed transaction leaves behind, whichever link the database chose. */
  lemma TransactDelivers(db: Db, job: Job, applyDefault: bool, row: Row, target: Target, hint: nat)
    requires Transact(db, job, applyDefault, row, target, hint).Committed?
    ensures var after, id := Transact(db, job, applyDefault, row, target, hint).db, WrittenLink(db, job, hint);
            && Delivered(after, job, id, target.campaign, row.link)
            && RatesWritten(db, after, job, applyDefault, id)
            && IdsWritten(db, after, job, target, row.link, id)
            && NothingElse(db, after, job.request, id)
  {
  }

  /**
   The four outcomes: Esportiva gives up on a request that is not pending, the index is checked before the request.
   */
  lemma OutcomeMeans(db: Db, job: Job, applyDefault: bool, row: Row, target: Target, hint: nat)
    ensures var outcome, id := Transact(db, job, applyDefault, row, target, hint), WrittenLink(db, job, hint);
            var pending := job.request in db.requests && db.requests[job.request].status == Pending;
            var taken := exists i: nat | i < |db.links| && i != id ::
              db.links[i].active && db.links[i].house == job.house && db.links[i].campaign == target.campaign;
            && (outcome.NoLongerPending? <==> job.family == Esportiva && !pending)
            && (outcome.IndexCollision? <==> taken && (job.family == Esportiva ==> pending))
            && (outcome.Committed? <==> !taken && job.request in db.requests && (job.family == Esportiva ==> pending))
  {
    var own := FindLink(db, job.user, job.house, hint);
    if Collides(db, job.house, target.campaign, own) {
      var i: nat :| i < |db.links| && db.links[i].active && db.links[i].house == job.house
                    && db.links[i].campaign == target.campaign && own != Some(i);
      assert i != WrittenLink(db, job, hint);
    }
  }

  /** If the transaction commits, the link it wrote has both rates. */
  predicate RatedAfter(db: Db, job: Job, applyDefault: bool, row: Row, target: Target, hint: nat) {
    var outcome := Transact(db, job, applyDefault, row, target, hint);
    outcome.Committed? ==> Rated(outcome.db, WrittenLink(db, job, hint))
  }

  /** Every active link of the user in the house that the campaign may be written to has both rates. */
  ghost predicate AllRated(db: Db, user: string, house: House, campaign: string) {
    forall i: nat | ActiveFor(db, i, user, house) && !Collides(db, house, campaign, Some(i)) :: Rated(db, i)
  }

  /**
   A Betano transaction without the default leaves rates on the link for every choice of the database exactly when
   every link it can choose has them.  Having found some link with rates is not enough.
   */
  lemma RatedForEveryChoice(db: Db, job: Job, row: Row, target: Target)
    requires job.family.Betano? && job.request in db.requests && HasCommission(db, job.user, job.house)
    ensures (forall hint: nat :: RatedAfter(db, job, false, row, target, hint)) <==>
        AllRated(db, job.user, job.house, target.campaign)
  {
    if forall hint: nat :: RatedAfter(db, job, false, row, target, hint) {
      forall i: nat | ActiveFor(db, i, job.user, job.house) && !Collides(db, job.house, target.campaign, Some(i))
        ensures Rated(db, i)
      {
        assert RatedAfter(db, job, false, row, target, i) && WrittenLink(db, job, i) == i;
        assert Transact(db, job, false, row, target, i).Committed?;
      }
    }
    if AllRated(db, job.user, job.house, target.campaign) {
      forall hint: nat
        ensures RatedAfter(db, job, false, row, target, hint)
      {
        if Transact(db, job, false, row, target, hint).Committed? {
          var id := WrittenLink(db, job, hint);
          assert ActiveFor(db, id, job.user, job.house);
          TransactDelivers(db, job, false, row, target, hint);
        }
      }
    }
  }

  /** For a campaign that is free in the house, that means every active link of the user there. */
  lemma FreeCampaignAllRated(db: Db, user: string, house: House, campaign: string)
    requires FreeIn(db, house, campaign)
    ensures AllRated(db, user, house, campaign) <==> forall i: nat | ActiveFor(db, i, user, house) :: Rated(db, i)
  {
  }

  /** Two links of one user in a house, the second without rates, and a transaction that picks the second. */
  lemma RatesCanBeMissing(row: Row) returns (db: Db, job: Job, target: Target, hint: nat)
    ensures job.family.Betano? && HouseUnique(db) && FamilyUnique(db) && HasCommission(db, job.user, job.house)
    ensures FreeIn(db, job.house, target.campaign)
    ensures Transact(db, job, false, row, target, hint).Committed? && !RatedAfter(db, job, false, row, target, hint)
  {
    var rated := Link("user", Regular, "pending_betano_user", "", Some(10.0), Some(20.0), None, true);
    var unrated := Link("user", Regular, "old-campaign", "old", None, None, None, true);
    db := Db([rated, unrated], map["request" := Request("user", Pending, "")], map[]);
    job := Job(Betano, Regular, "user", "request", None);
    target, hint := Target("new-campaign", "new"), 1;
    assert ActiveFor(db, 0, "user", Regular) && db.links[0].cpa.Some? && db.links[0].revshare.Some?;
  }

  /** Rows keep their identifier, their owner and their house, and stay active. */
  lemma TransactKeepsIdentity(db: Db, job: Job, applyDefault: bool, row: Row, target: Target, hint: nat, i: nat)
    requires Transact(db, job, applyDefault, row, target, hint).Committed? && i < |db.links|
    ensures var after := Transact(db, job, applyDefault, row, target, hint).db;
            && i < |after.links| && after.links[i].house == db.links[i].house
            && after.links[i].user == db.links[i].user && after.links[i].active == db.links[i].active
  {
  }

  /** A stored commission is never lost by a transaction. */
  lemma TransactKeepsCommission(db: Db, job: Job, applyDefault: bool, row: Row, target: Target, hint: nat,
                                user: string, house: House)
    requires HasCommission(db, user, house)
    requires Transact(db, job, applyDefault, row, target, hint).Committed?
    ensures HasCommission(Transact(db, job, applyDefault, row, target, hint).db, user, house)
  {
    var i: nat :| i < |db.links| && ActiveFor(db, i, user, house) && db.links[i].cpa.Some?
        && db.links[i].revshare.Some?;
    var db' := Transact(db, job, applyDefault, row, target, hint).db;
    assert ActiveFor(db', i, user, house) && db'.links[i].cpa.Some? && db'.links[i].revshare.Some?;
  }

  // ----- What rows and rates are, in plain terms -----

  /** A row that nobody has: no status, no e-mail, but a link, and for Esportiva an id. */
  predicate Unused(family: Family, row: Row) {
    |row.status| == 0 && |row.email| == 0 && |row.link| > 0 && (family == Esportiva ==> |row.id| > 0)
  }

  lemma {:induction false} CandidatesMean(family: Family, rows: seq<Row>, row: Row)
    ensures row in Candidates(family, rows) <==> row in rows && Unused(family, row)
  {
    if rows != [] {
      CandidatesMean(family, rows[1..], row);
    }
  }

  /** Candidates keep the order of the rows. */
  lemma {:induction false} CandidatesInOrder(family: Family, rows: seq<Row>, more: seq<Row>)
    ensures Candidates(family, rows + more) == Candidates(family, rows) + Candidates(family, more)
  {
    if rows == [] {
      assert rows + more == more;
    } else {
      assert (rows + more)[1..] == rows[1..] + more;
      CandidatesInOrder(family, rows[1..], more);
    }
  }

  /** The campaign is site and c of the link for Betano, the trimmed id after a fixed prefix for Esportiva. */
  predicate NamesTarget(family: Family, row: Row, campaign: string, affiliateId: string) {
    match family
    case Betano =>
      row.ids.Some? && campaign == row.ids.value.0 + "-" + row.ids.value.1 && affiliateId == row.ids.value.0
    case Esportiva => campaign == "MJM COMPANY - " + Trim(row.id) && affiliateId == ""
  }

  /** The user has an active link in the house with both rates. */
  predicate HasBothRates(db: Db, user: string, house: House) {
    exists l | l in db.links :: l.active && l.user == user && l.house == house && l.cpa.Some? && l.revshare.Some?
  }

  lemma HasCommissionMeans(db: Db, user: string, house: House)
    ensures HasCommission(db, user, house) <==> HasBothRates(db, user, house)
  {
    if HasBothRates(db, user, house) {
      var l :| l in db.links && l.active && l.user == user && l.house == house && l.cpa.Some? && l.revshare.Some?;
      var i :| 0 <= i < |db.links| && db.links[i] == l;
      assert ActiveFor(db, i, user, house);
    }
  }
}
