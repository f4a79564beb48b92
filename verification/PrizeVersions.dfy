/**
 The versions of a CPA prize rule.  A structural edit supersedes the version in force and adds the next one;
 edits read the version in force first and commit later, so edits of several administrators can overlap.
 Days are numbers; what is counted are cells, the figures of one house on one day.  An evaluation is one step.
 */
module PrizeVersions {
  import opened Basics
  import PrizeLedger

  datatype CountMode = Network | Individual

  /** What a version counts and pays. */
  datatype Terms = Terms(house: Option<string>, cpaPerPrize: int, countMode: CountMode,
                         prizeType: PrizeLedger.PrizeType, prizeValue: real)

  /** A version's identifier is its position. */
  datatype Version = Version(rule: string, number: int, terms: Terms, startDate: int, endDate: Option<int>,
                             effectiveFrom: int, superseded: bool)

  datatype Rule = Rule(currentVersionId: nat, active: bool, archived: bool)

  /** Fields that an edit leaves out stay as they are; an empty house means all houses. */
  datatype Edit = Edit(active: Option<bool>, house: Option<string>, cpaPerPrize: Option<int>,
                       countMode: Option<CountMode>, prizeType: Option<PrizeLedger.PrizeType>,
                       prizeValue: Option<real>, startDate: Option<int>,
                       endDate: Option<Option<int>>, applySameDay: bool)

  predicate HasStructural(e: Edit) {
    e.cpaPerPrize.Some? || e.prizeValue.Some? || e.prizeType.Some? || e.countMode.Some? || e.house.Some?
    || e.startDate.Some? || e.endDate.Some?
  }

  function Edited(t: Terms, e: Edit): Terms {
    Terms(if e.house.None? then t.house else if e.house.value == "" then None else e.house,
          if e.cpaPerPrize.Some? then e.cpaPerPrize.value else t.cpaPerPrize,
          if e.countMode.Some? then e.countMode.value else t.countMode,
          if e.prizeType.Some? then e.prizeType.value else t.prizeType,
          if e.prizeValue.Some? then e.prizeValue.value else t.prizeValue)
  }

  /** The version that follows `current`; it counts from tomorrow unless asked to start today. */
  function Successor(current: Version, e: Edit, today: int): Version {
    Version(current.rule, current.number + 1, Edited(current.terms, e),
            if e.startDate.Some? then e.startDate.value else current.startDate,
            if e.endDate.Some? then e.endDate.value else current.endDate,
            if e.applySameDay then today else today + 1, false)
  }

  predicate HasNumber(versions: seq<Version>, rule: string, number: int) {
    exists i | 0 <= i < |versions| :: versions[i].rule == rule && versions[i].number == number
  }

  /** The rule tables. */
  datatype Book = Book(rules: map<string, Rule>, versions: seq<Version>)

  function Create(b: Book, id: string, terms: Terms, startDate: int, endDate: Option<int>): Book {
    Book(b.rules[id := Rule(|b.versions|, true, false)],
         b.versions + [Version(id, 1, terms, startDate, endDate, startDate, false)])
  }

  datatype Outcome = Committed | Failed

  /**
   The transaction of an edit, for a version `current` that was read as in force some time before.  It fails as a
   whole if the rule is gone or the next number is taken: (rule, number) is unique.
   */
  function CommitEdit(b: Book, rule: string, current: nat, e: Edit, today: int): (Book, Outcome)
    requires current < |b.versions|
  {
    if rule !in b.rules then (b, Failed)
    else
      var toggled := if e.active.Some? then b.rules[rule := b.rules[rule].(active := e.active.value)] else b.rules;
      if !HasStructural(e) then (Book(toggled, b.versions), Committed)
      else
        var next := Successor(b.versions[current], e, today);
        if HasNumber(b.versions, next.rule, next.number) then (b, Failed)
        else
          (Book(toggled[rule := toggled[rule].(currentVersionId := |b.versions|)],
                b.versions[current := b.versions[current].(superseded := true)] + [next]), Committed)
  }

  function Remove(b: Book, rule: string, hasHistory: bool): Book {
    if rule !in b.rules then b
    else if hasHistory then b.(rules := b.rules[rule := b.rules[rule].(active := false, archived := true)])
    else b.(rules := b.rules - {rule})
  }

  /** No rule and no version has the id. */
  predicate FreshRule(b: Book, id: string) {
    id !in b.rules && forall v | v in b.versions :: v.rule != id
  }

  /**
   The new rule has one version, in force, which counts the days of the rule's own window; all older rules are as
   before.
   */
  ghost predicate Created(b: Book, after: Book, id: string, startDate: int, endDate: Option<int>) {
    && id in after.rules && after.rules[id].active && !after.rules[id].archived
    && (forall i | 0 <= i < |after.versions| :: after.versions[i].rule == id <==> i == after.rules[id].currentVersionId)
    && after.rules[id].currentVersionId == |b.versions| < |after.versions|
    && (forall today, day :: Counts(after.versions[|b.versions|], today, day)
                             <==> startDate <= day <= if endDate.Some? then endDate.value else today)
    && !after.versions[|b.versions|].superseded
    && after.versions[..|b.versions|] == b.versions
    && (forall r | r in b.rules :: r in after.rules && after.rules[r] == b.rules[r])
  }

  lemma CreateCreates(b: Book, id: string, terms: Terms, startDate: int, endDate: Option<int>)
    ensures FreshRule(b, id) ==> Created(b, Create(b, id, terms, startDate, endDate), id, startDate, endDate)
  {
    if FreshRule(b, id) {
      forall i | 0 <= i < |b.versions|
        ensures b.versions[i].rule != id
      {
        assert b.versions[i] in b.versions;
      }
    }
  }

  // ----- The admin service -----

  class RuleStore {
    var rules: map<string, Rule>
    var versions: seq<Version>

    ghost function Contents(): Book
      reads this
    {
      Book(rules, versions)
    }

    constructor ()
      ensures Contents() == Book(map[], [])
    {
      rules, versions := map[], [];
    }

    method CreateRule(id: string, terms: Terms, startDate: int, endDate: Option<int>)
      modifies this
      ensures Contents() == Create(old(Contents()), id, terms, startDate, endDate)
      ensures FreshRule(old(Contents()), id) ==> Created(old(Contents()), Contents(), id, startDate, endDate)
      ensures FreshRule(old(Contents()), id) && OneInForce(old(Contents())) && Numbered(old(Contents())) ==>
                OneInForce(Contents()) && Numbered(Contents())
    {
      ghost var before := Contents();
      versions := versions + [Version(id, 1, terms, startDate, endDate, startDate, false)];
      rules := rules[id := Rule(|versions| - 1, true, false)];
      CreateCreates(before, id, terms, startDate, endDate);
      if FreshRule(before, id) && OneInForce(before) && Numbered(before) {
        CreateIsSound(before, id, terms, startDate, endDate);
      }
    }

    /** The version in force, as an edit reads it before its transaction. */
    method ReadCurrent(rule: string) returns (current: Option<nat>)
      ensures current.Some? ==> rule in rules && current.value < |versions|
                                && versions[current.value].rule == rule && !versions[current.value].superseded
      ensures current.None? ==> rule !in rules
                                || forall i | 0 <= i < |versions| && versions[i].rule == rule :: versions[i].superseded
    {
      if rule !in rules {
        return None;
      }
      for i := 0 to |versions|
        invariant forall k | 0 <= k < i && versions[k].rule == rule :: versions[k].superseded
      {
        if versions[i].rule == rule && !versions[i].superseded {
          return Some(i);
        }
      }
      current := None;
    }

    method UpdateRule(rule: string, current: nat, e: Edit, today: int) returns (outcome: Outcome)
      requires current < |versions|
      modifies this
      ensures (Contents(), outcome) == CommitEdit(old(Contents()), rule, current, e, today)
    {
      if rule !in rules {
        return Failed;
      }
      var rolledBack := rules;
      if e.active.Some? {
        rules := rules[rule := rules[rule].(active := e.active.value)];
      }
      if HasStructural(e) {
        var next := Successor(versions[current], e, today);
        if HasNumber(versions, next.rule, next.number) {
          rules := rolledBack;
          return Failed;
        }
        rules := rules[rule := rules[rule].(currentVersionId := |versions|)];
        versions := versions[current := versions[current].(superseded := true)] + [next];
      }
      outcome := Committed;
    }

    /** A rule that some award or progress row refers to is archived, any other deleted. */
    method RemoveRule(rule: string, awards: nat, progressRows: nat)
      modifies this
      ensures Contents() == Remove(old(Contents()), rule, awards + progressRows > 0)
    {
      if rule in rules {
        if awards > 0 || progressRows > 0 {
          rules := rules[rule := rules[rule].(active := false, archived := true)];
        } else {
          rules := rules - {rule};
        }
      }
    }
  }

  // ----- Counting -----

  function Max(a: int, b: int): int {
    if a < b then b else a
  }

  /** The counting window of a version on a day. */
  predicate Counts(v: Version, today: int, day: int) {
    Max(v.startDate, v.effectiveFrom) <= day <= if v.endDate.Some? then v.endDate.value else today
  }

  /** The figures of a house on a day. */
  datatype Cell = Cell(house: string, day: int)

  /** A version without a house counts all houses. */
  predicate OfHouse(t: Terms, house: string) {
    t.house.Some? ==> t.house.value == house
  }

  /** One evaluation: the cells of `data` that the version counts; none if it is superseded. */
  function CountedCells(v: Version, today: int, data: set<Cell>): set<Cell> {
    if v.superseded then {} else set c | c in data && OfHouse(v.terms, c.house) && Counts(v, today, c.day)
  }

  // ----- Runs -----

  /**
   `pending` are edits under way: a rule and the version they read; `counted` remembers which version counted which
   cell.
   */
  datatype State = State(today: int, book: Book, pending: set<(string, nat)>, counted: set<(nat, Cell)>)

  datatype Event =
    | NextDay
    | CreateRule(id: string, terms: Terms, startDate: int, endDate: Option<int>)
    | ReadRule(rule: string, version: nat)
    | CommitRule(rule: string, version: nat, edit: Edit)
    | RemoveRule(rule: string, hasHistory: bool)
    | Evaluate(version: nat, data: set<Cell>)

  /**
   Rule ids are fresh, reads see a version in force, commits follow a read, and no data is dated after its evaluation.
   */
  predicate Allowed(s: State, e: Event) {
    match e
    case NextDay => true
    case CreateRule(id, _, _, _) => FreshRule(s.book, id)
    case ReadRule(rule, version) =>
      rule in s.book.rules && version < |s.book.versions| && s.book.versions[version].rule == rule
          && !s.book.versions[version].superseded
    case CommitRule(rule, version, _) => (rule, version) in s.pending && version < |s.book.versions|
    case RemoveRule(_, _) => true
    case Evaluate(version, data) =>
      version < |s.book.versions| && s.book.versions[version].rule in s.book.rules && forall c | c in data ::
          c.day <= s.today
  }

  function Next(s: State, e: Event): State
    requires Allowed(s, e)
  {
    match e
    case NextDay => s.(today := s.today + 1)
    case CreateRule(id, terms, startDate, endDate) => s.(book := Create(s.book, id, terms, startDate, endDate))
    case ReadRule(rule, version) => s.(pending := s.pending + {(rule, version)})
    case CommitRule(rule, version, edit) => s.(book := CommitEdit(s.book, rule, version, edit, s.today).0)
    case RemoveRule(rule, hasHistory) => s.(book := Remove(s.book, rule, hasHistory))
    case Evaluate(version, data) =>
      s.(counted := s.counted + set c | c in CountedCells(s.book.versions[version], s.today, data) :: (version, c))
  }

  predicate IsRun(s: State, es: seq<Event>)
    decreases |es|
  {
    es == [] || (Allowed(s, es[0]) && IsRun(Next(s, es[0]), es[1..]))
  }

  function Run(s: State, es: seq<Event>): State
    requires IsRun(s, es)
    decreases |es|
  {
    if es == [] then s else Run(Next(s, es[0]), es[1..])
  }

  // ----- One version in force -----

  /** A rule has exactly one version that is not superseded, and it is the current one. */
  ghost predicate OneInForce(b: Book) {
    forall r | r in b.rules ::
      && b.rules[r].currentVersionId < |b.versions|
      && (forall i | 0 <= i < |b.versions| && b.versions[i].rule == r ::
            i <= b.rules[r].currentVersionId && (!b.versions[i].superseded <==> i == b.rules[r].currentVersionId))
      && b.versions[b.rules[r].currentVersionId].rule == r
  }

  /** Numbers tell a rule's versions apart, and a superseded version has a successor. */
  ghost predicate Numbered(b: Book) {
    && (forall i, j | 0 <= i < j < |b.versions| && b.versions[i].rule == b.versions[j].rule ::
        b.versions[i].number < b.versions[j].number)
    && (forall i | 0 <= i < |b.versions| && b.versions[i].superseded ::
        HasNumber(b.versions, b.versions[i].rule, b.versions[i].number + 1))
  }

  ghost predicate Sound(s: State) {
    && OneInForce(s.book) && Numbered(s.book) && Pending(s.book.versions, s.pending)
  }

  ghost predicate Pending(versions: seq<Version>, pending: set<(string, nat)>) {
    forall r, v | (r, v) in pending :: v < |versions| && versions[v].rule == r
  }

  lemma PendingStays(before: seq<Version>, after: seq<Version>, pending: set<(string, nat)>)
    requires Pending(before, pending) && |before| <= |after| && forall i | 0 <= i < |before| ::
        after[i].rule == before[i].rule
    ensures Pending(after, pending)
  {
  }

  lemma HasNumberStays(before: seq<Version>, after: seq<Version>, rule: string, number: int)
    requires |before| <= |after| && HasNumber(before, rule, number)
    requires forall i | 0 <= i < |before| :: after[i].rule == before[i].rule && after[i].number == before[i].number
    ensures HasNumber(after, rule, number)
  {
    var i :| 0 <= i < |before| && before[i].rule == rule && before[i].number == number;
    assert after[i].rule == rule && after[i].number == number;
  }

  lemma CreateIsSound(b: Book, id: string, terms: Terms, startDate: int, endDate: Option<int>)
    requires OneInForce(b) && Numbered(b) && id !in b.rules && forall v | v in b.versions :: v.rule != id
    ensures OneInForce(Create(b, id, terms, startDate, endDate)) && Numbered(Create(b, id, terms, startDate, endDate))
  {
    var after := Create(b, id, terms, startDate, endDate);
    forall i | 0 <= i < |b.versions|
      ensures after.versions[i] == b.versions[i] && b.versions[i].rule != id
    {
      assert b.versions[i] in b.versions;
    }
    CreatedIsNumbered(b, after);
  }

  lemma CreatedIsNumbered(b: Book, after: Book)
    requires Numbered(b) && |after.versions| == |b.versions| + 1 && !after.versions[|b.versions|].superseded
    requires forall i | 0 <= i < |b.versions| ::
        after.versions[i] == b.versions[i] && b.versions[i].rule != after.versions[|b.versions|].rule
    ensures Numbered(after)
  {
    forall i | 0 <= i < |after.versions| && after.versions[i].superseded
      ensures HasNumber(after.versions, after.versions[i].rule, after.versions[i].number + 1)
    {
      HasNumberStays(b.versions, after.versions, after.versions[i].rule, after.versions[i].number + 1);
    }
  }

  /** A stale edit fails: only an edit that read the version still in force can commit. */
  lemma OnlyTheCurrentIsSuperseded(b: Book, rule: string, current: nat, e: Edit, today: int)
    requires OneInForce(b) && Numbered(b) && current < |b.versions| && b.versions[current].rule == rule
        && rule in b.rules
    ensures HasStructural(e) && CommitEdit(b, rule, current, e, today).1.Committed? ==>
        current == b.rules[rule].currentVersionId
  {
    if b.versions[current].superseded {
      assert HasNumber(b.versions, rule, b.versions[current].number + 1);
    }
  }

  /** The tables after an edit of the version in force has committed. */
  ghost predicate Superseded(b: Book, current: nat, next: Version, after: Book) {
    && current < |b.versions| && |after.versions| == |b.versions| + 1
    && after.versions[current] == b.versions[current].(superseded := true)
    && after.versions[|b.versions|] == next && !next.superseded
    && next.rule == b.versions[current].rule && next.number == b.versions[current].number + 1
    && (forall i | 0 <= i < |b.versions| && i != current :: after.versions[i] == b.versions[i])
    && next.rule in b.rules && after.rules.Keys == b.rules.Keys
    && after.rules[next.rule].currentVersionId == |b.versions|
    && (forall r | r in b.rules && r != next.rule :: after.rules[r] == b.rules[r])
  }

  lemma NextIsInForce(b: Book, current: nat, next: Version, after: Book)
    requires OneInForce(b) && Superseded(b, current, next, after) && current == b.rules[next.rule].currentVersionId
    ensures OneInForce(after)
  {
  }

  lemma NextHasTheNextNumber(b: Book, current: nat, next: Version, after: Book, i: nat)
    requires Numbered(b) && Superseded(b, current, next, after) && i < |after.versions| && after.versions[i].superseded
    ensures HasNumber(after.versions, after.versions[i].rule, after.versions[i].number + 1)
  {
    if i == current {
      assert after.versions[|b.versions|].number == after.versions[i].number + 1;
    } else {
      assert HasNumber(b.versions, b.versions[i].rule, b.versions[i].number + 1);
      HasNumberStays(b.versions, after.versions, after.versions[i].rule, after.versions[i].number + 1);
    }
  }

  lemma NextIsTheHighest(b: Book, current: nat, next: Version, after: Book, i: nat)
    requires OneInForce(b) && Numbered(b) && Superseded(b, current, next, after)
        && current == b.rules[next.rule].currentVersionId
    requires i < |b.versions| && after.versions[i].rule == next.rule
    ensures after.versions[i].number < next.number
  {
    assert b.versions[i].rule == next.rule && b.versions[i].number == after.versions[i].number;
    assert i <= current;
  }

  lemma NextIsNumbered(b: Book, current: nat, next: Version, after: Book)
    requires OneInForce(b) && Numbered(b) && Superseded(b, current, next, after)
        && current == b.rules[next.rule].currentVersionId
    ensures Numbered(after)
  {
    forall i | 0 <= i < |after.versions| && after.versions[i].superseded
      ensures HasNumber(after.versions, after.versions[i].rule, after.versions[i].number + 1)
    {
      NextHasTheNextNumber(b, current, next, after, i);
    }
    forall i, j | 0 <= i < j < |after.versions| && after.versions[i].rule == after.versions[j].rule
      ensures after.versions[i].number < after.versions[j].number
    {
      if j == |b.versions| {
        NextIsTheHighest(b, current, next, after, i);
      } else {
        assert b.versions[i].rule == b.versions[j].rule;
        assert b.versions[i].number == after.versions[i].number && b.versions[j].number == after.versions[j].number;
      }
    }
  }

  lemma SupersedeIsSound(b: Book, rule: string, current: nat, e: Edit, today: int)
    requires OneInForce(b) && Numbered(b) && rule in b.rules && HasStructural(e)
    requires current == b.rules[rule].currentVersionId
    ensures var after := CommitEdit(b, rule, current, e, today).0; OneInForce(after) && Numbered(after)
  {
    var after, outcome := CommitEdit(b, rule, current, e, today).0, CommitEdit(b, rule, current, e, today).1;
    if outcome.Committed? {
      var next := Successor(b.versions[current], e, today);
      assert Superseded(b, current, next, after);
      NextIsInForce(b, current, next, after);
      NextIsNumbered(b, current, next, after);
    }
  }

  lemma CommitIsSound(b: Book, rule: string, current: nat, e: Edit, today: int)
    requires OneInForce(b) && Numbered(b) && current < |b.versions| && b.versions[current].rule == rule
    ensures var after := CommitEdit(b, rule, current, e, today).0; OneInForce(after) && Numbered(after)
  {
    var after, outcome := CommitEdit(b, rule, current, e, today).0, CommitEdit(b, rule, current, e, today).1;
    if outcome.Committed? && HasStructural(e) {
      OnlyTheCurrentIsSuperseded(b, rule, current, e, today);
      SupersedeIsSound(b, rule, current, e, today);
    } else {
      assert after.versions == b.versions;
    }
  }

  lemma BookStepIsSound(s: State, e: Event)
    requires Sound(s) && Allowed(s, e)
    ensures OneInForce(Next(s, e).book) && Numbered(Next(s, e).book)
  {
    match e
    case CreateRule(id, terms, startDate, endDate) => CreateIsSound(s.book, id, terms, startDate, endDate);
    case CommitRule(rule, version, edit) => CommitIsSound(s.book, rule, version, edit, s.today);
    case _ =>
  }

  lemma StepIsSound(s: State, e: Event)
    requires Sound(s) && Allowed(s, e)
    ensures Sound(Next(s, e))
  {
    BookStepIsSound(s, e);
    PendingStays(s.book.versions, Next(s, e).book.versions, s.pending);
  }

  /** However edits, removals and evaluations overlap, each rule has exactly one version in force, its current one. */
  lemma {:induction false} AlwaysOneInForce(s: State, es: seq<Event>)
    requires Sound(s) && IsRun(s, es)
    ensures Sound(Run(s, es))
    decreases |es|
  {
    if es != [] {
      StepIsSound(s, es[0]);
      AlwaysOneInForce(Next(s, es[0]), es[1..]);
    }
  }

  // ----- No day counted twice -----

  predicate NeverSameDay(es: seq<Event>) {
    forall e | e in es :: e.CommitRule? ==> !e.edit.applySameDay
  }

  /** The cells a version counts on their day or later. */
  predicate CanCount(v: Version, c: Cell) {
    OfHouse(v.terms, c.house) && v.startDate <= c.day && v.effectiveFrom <= c.day
        && (v.endDate.Some? ==> c.day <= v.endDate.value)
  }

  /** Some version of the rule has already counted the day for a house that the terms cover, too. */
  predicate CountedBy(s: State, rule: string, terms: Terms, day: int) {
    exists e | e in s.counted ::
      e.0 < |s.book.versions| && s.book.versions[e.0].rule == rule && e.1.day == day && OfHouse(terms, e.1.house)
  }

  /**
   The event is a same-day edit that takes effect on a day that its rule has counted already, for a house that the new
   version counts, too, and the new version's own dates contain that day.
   */
  predicate CountsTodayAgain(s: State, e: Event)
    requires Allowed(s, e)
  {
    && e.CommitRule? && e.edit.applySameDay && HasStructural(e.edit)
    && CommitEdit(s.book, e.rule, e.version, e.edit, s.today).1.Committed?
    && var next := Successor(s.book.versions[e.version], e.edit, s.today);
       && CountedBy(s, e.rule, next.terms, s.today)
       && next.startDate <= s.today && (next.endDate.Some? ==> s.today <= next.endDate.value)
  }

  /**
   Counted cells lie in the past of the count and in the window of their version, and no later version can count them.
   */
  ghost predicate Separated(s: State) {
    && (forall v, c | (v, c) in s.counted ::
        v < |s.book.versions| && c.day <= s.today && CanCount(s.book.versions[v], c))
    && (forall v, c, w | (v, c) in s.counted && v < w < |s.book.versions|
        && s.book.versions[w].rule == s.book.versions[v].rule ::
          !CanCount(s.book.versions[w], c))
  }

  /** No cell, so no CPA, is counted by two versions of one rule. */
  ghost predicate CountedOnce(s: State) {
    forall v, w, c | (v, c) in s.counted && (w, c) in s.counted && v < |s.book.versions| && w < |s.book.versions|
      && s.book.versions[v].rule == s.book.versions[w].rule :: v == w
  }

  lemma SeparatedCountsOnce(s: State)
    requires Separated(s)
    ensures CountedOnce(s)
  {
    forall v, w, c | (v, c) in s.counted && (w, c) in s.counted && v < |s.book.versions| && w < |s.book.versions|
      && s.book.versions[v].rule == s.book.versions[w].rule
      ensures v == w
    {
    }
  }

  /** What an edit does to houses and dates: nothing, but for the new version it may add. */
  ghost predicate ScopesKept(before: seq<Version>, after: seq<Version>) {
    && |before| <= |after| <= |before| + 1
    && forall i | 0 <= i < |before| :: after[i].rule == before[i].rule && SameScope(after[i], before[i])
  }

  lemma AddingSeparates(s: State, after: State)
    requires Separated(s) && ScopesKept(s.book.versions, after.book.versions)
    requires after.counted == s.counted && after.today == s.today
    requires |after.book.versions| > |s.book.versions| ==>
               var next := after.book.versions[|s.book.versions|];
               forall v, c | (v, c) in s.counted && s.book.versions[v].rule == next.rule :: !CanCount(next, c)
    ensures Separated(after)
  {
  }

  /** The new version counts no cell that its rule has counted. */
  lemma NextCountsLater(s: State, rule: string, next: Version, v: nat, c: Cell)
    requires Separated(s) && (v, c) in s.counted && s.book.versions[v].rule == rule
    requires next.effectiveFrom >= s.today
    requires next.effectiveFrom == s.today && CountedBy(s, rule, next.terms, s.today) ==>
               next.startDate > s.today || (next.endDate.Some? && next.endDate.value < s.today)
    ensures !CanCount(next, c)
  {
    assert c.day == s.today && OfHouse(next.terms, c.house) ==> CountedBy(s, rule, next.terms, s.today) by {
      assert (v, c).0 == v && (v, c).1 == c;
    }
  }

  lemma CommitSeparates(s: State, rule: string, version: nat, edit: Edit)
    requires Sound(s) && Separated(s) && Allowed(s, CommitRule(rule, version, edit))
    requires !CountsTodayAgain(s, CommitRule(rule, version, edit))
    ensures Separated(Next(s, CommitRule(rule, version, edit)))
  {
    var after := Next(s, CommitRule(rule, version, edit));
    var n, versions := |s.book.versions|, after.book.versions;
    assert s.book.versions[version].rule == rule;
    if |versions| > n {
      assert versions[n] == Successor(s.book.versions[version], edit, s.today);
      forall v, c | (v, c) in s.counted && s.book.versions[v].rule == rule
        ensures !CanCount(versions[n], c)
      {
        NextCountsLater(s, rule, versions[n], v, c);
      }
    }
    AddingSeparates(s, after);
  }

  predicate SameScope(v: Version, w: Version) {
    v.terms == w.terms && v.startDate == w.startDate && v.effectiveFrom == w.effectiveFrom && v.endDate == w.endDate
  }

  lemma EvaluationSeparates(s: State, version: nat, data: set<Cell>)
    requires Sound(s) && Separated(s) && Allowed(s, Evaluate(version, data))
    ensures Separated(Next(s, Evaluate(version, data)))
  {
    var v := s.book.versions[version];
    var after := Next(s, Evaluate(version, data));
    forall x, c | (x, c) in after.counted && (x, c) !in s.counted
      ensures x == version && !v.superseded && c.day <= s.today && CanCount(v, c)
    {
    }
    if !v.superseded {
      assert s.book.rules[v.rule].currentVersionId == version;
    }
  }

  lemma StepSeparates(s: State, e: Event)
    requires Sound(s) && Separated(s) && Allowed(s, e) && !CountsTodayAgain(s, e)
    ensures Separated(Next(s, e))
  {
    match e
    case CreateRule(id, terms, startDate, endDate) =>
      forall i | 0 <= i < |s.book.versions|
        ensures s.book.versions[i].rule != id
      {
        assert s.book.versions[i] in s.book.versions;
      }
    case CommitRule(rule, version, edit) => CommitSeparates(s, rule, version, edit);
    case Evaluate(version, data) => EvaluationSeparates(s, version, data);
    case _ =>
  }

  /** A history in which no same-day edit counts its day again for some house. */
  predicate SafeHistory(s: State, es: seq<Event>)
    requires IsRun(s, es)
    decreases |es|
  {
    es == [] || (!CountsTodayAgain(s, es[0]) && SafeHistory(Next(s, es[0]), es[1..]))
  }

  lemma {:induction false} WithoutSameDayIsSafe(s: State, es: seq<Event>)
    requires IsRun(s, es) && NeverSameDay(es)
    ensures SafeHistory(s, es)
    decreases |es|
  {
    if es != [] {
      assert es[0] in es;
      WithoutSameDayIsSafe(Next(s, es[0]), es[1..]);
    }
  }

  /** Over every safe history, one without same-day edits above all, no day is counted by two versions of a rule. */
  lemma {:induction false} NoDayIsCountedTwice(s: State, es: seq<Event>)
    requires Sound(s) && Separated(s) && IsRun(s, es) && (NeverSameDay(es) || SafeHistory(s, es))
    ensures Sound(Run(s, es)) && Separated(Run(s, es)) && CountedOnce(Run(s, es))
    decreases |es|
  {
    if es == [] {
      SeparatedCountsOnce(s);
    } else {
      if NeverSameDay(es) {
        WithoutSameDayIsSafe(s, es);
      }
      StepIsSound(s, es[0]);
      StepSeparates(s, es[0]);
      NoDayIsCountedTwice(Next(s, es[0]), es[1..]);
    }
  }

  /** Whatever happens from here without further same-day edits, no day is counted twice. */
  ghost predicate NeverTwice(s: State) {
    forall es | IsRun(s, es) && NeverSameDay(es) :: CountedOnce(Run(s, es))
  }

  lemma SeparatedIsNeverTwice(s: State)
    requires Sound(s) && Separated(s)
    ensures NeverTwice(s)
  {
    forall es | IsRun(s, es) && NeverSameDay(es)
      ensures CountedOnce(Run(s, es))
    {
      NoDayIsCountedTwice(s, es);
    }
  }

  /** The new version is the last one, and the others belong to the same rules as before. */
  lemma CommittedVersions(s: State, e: Event)
    requires Sound(s) && Allowed(s, e) && CountsTodayAgain(s, e)
    ensures var n, after := |s.book.versions|, Next(s, e);
            && |after.book.versions| == n + 1 && after.counted == s.counted && after.today == s.today
            && s.book.versions[e.version].rule == e.rule && e.rule in after.book.rules
            && after.book.versions[n] == Successor(s.book.versions[e.version], e.edit, s.today)
            && forall i | 0 <= i < n :: after.book.versions[i].rule == s.book.versions[i].rule
  {
  }

  lemma CountedTwiceNow(after: State, v: nat, n: nat, c: Cell)
    requires v != n && (v, c) in after.counted && v < |after.book.versions| && n < |after.book.versions|
    requires after.book.versions[v].rule == after.book.versions[n].rule
        && after.book.versions[n].rule in after.book.rules
    requires c.day == after.today && c in CountedCells(after.book.versions[n], after.today, {c})
    ensures !NeverTwice(after)
  {
    var again := Evaluate(n, {c});
    var twice := Next(after, again);
    assert (v, c) in twice.counted && (n, c) in twice.counted;
    RunOne(after, again, []);
    assert NeverSameDay([again] + []) && Run(after, [again] + []) == twice;
    assert !CountedOnce(twice);
  }

  /** After such an edit, evaluating the new version at once counts today's figures of a house a second time. */
  lemma CountingTodayAgain(s: State, e: Event)
    requires Sound(s) && Allowed(s, e) && CountsTodayAgain(s, e)
    ensures !NeverTwice(Next(s, e))
  {
    var n, after := |s.book.versions|, Next(s, e);
    CommittedVersions(s, e);
    var next := after.book.versions[n];
    var first :| first in s.counted && first.0 < n && s.book.versions[first.0].rule == e.rule
                 && first.1.day == s.today && OfHouse(next.terms, first.1.house);
    assert first == (first.0, first.1);
    assert Counts(next, s.today, s.today);
    CountedTwiceNow(after, first.0, n, first.1);
  }

  /** A step makes a second count possible exactly if it is a same-day edit that counts its day again. */
  lemma StepIsNeverTwiceExactlyWhen(s: State, e: Event)
    requires Sound(s) && Separated(s) && Allowed(s, e)
    ensures NeverTwice(Next(s, e)) <==> !CountsTodayAgain(s, e)
  {
    if CountsTodayAgain(s, e) {
      CountingTodayAgain(s, e);
    } else {
      StepIsSound(s, e);
      StepSeparates(s, e);
      SeparatedIsNeverTwice(Next(s, e));
    }
  }

  /** Every state of the history is one from which no day is counted twice. */
  ghost predicate NeverTwiceThroughout(s: State, es: seq<Event>)
    requires IsRun(s, es)
    decreases |es|
  {
    NeverTwice(s) && (es == [] || NeverTwiceThroughout(Next(s, es[0]), es[1..]))
  }

  /** The exact condition for whole histories: no day can ever be counted twice if and only if the history is safe. */
  lemma {:induction false} SafeExactlyWhenNeverTwice(s: State, es: seq<Event>)
    requires Sound(s) && Separated(s) && IsRun(s, es)
    ensures SafeHistory(s, es) <==> NeverTwiceThroughout(s, es)
    decreases |es|
  {
    SeparatedIsNeverTwice(s);
    if es != [] {
      StepIsNeverTwiceExactlyWhen(s, es[0]);
      if CountsTodayAgain(s, es[0]) {
        assert !NeverTwiceThroughout(Next(s, es[0]), es[1..]);
      } else {
        StepIsSound(s, es[0]);
        StepSeparates(s, es[0]);
        SafeExactlyWhenNeverTwice(Next(s, es[0]), es[1..]);
      }
    }
  }

  /** A same-day edit can count a day twice: evaluate, edit from today on, evaluate again. */
  lemma SameDayCanCountTwice(terms: Terms, more: int, house: string) returns (s: State, es: seq<Event>)
    requires OfHouse(terms, house)
    ensures Sound(s) && Separated(s) && IsRun(s, es) && !CountedOnce(Run(s, es))
  {
    var edit := Edit(None, None, Some(more), None, None, None, None, None, true);
    var v1 := Version("rule", 1, terms, 0, None, 0, false);
    var v2 := Version("rule", 2, Edited(terms, edit), 0, None, 0, false);
    s := State(0, Book(map["rule" := Rule(0, true, false)], [v1]), {("rule", 0)}, {});
    var c := Cell(house, 0);
    var evaluated := s.(counted := {(0, c)});
    var committed := evaluated.(book := Book(map["rule" := Rule(1, true, false)], [v1.(superseded := true), v2]));
    var again := committed.(counted := {(0, c), (1, c)});
    var e1, e2, e3 := Evaluate(0, {c}), CommitRule("rule", 0, edit), Evaluate(1, {c});
    assert CountedCells(v1, 0, {c}) == {c} && Next(s, e1) == evaluated;
    assert s.book.versions[0 := v1.(superseded := true)] == [v1.(superseded := true)];
    assert Next(evaluated, e2) == committed;
    assert CountedCells(v2, 0, {c}) == {c} && Next(committed, e3) == again;
    RunOne(committed, e3, []);
    RunOne(evaluated, e2, [e3]);
    RunOne(s, e1, [e2, e3]);
    es := [e1] + ([e2] + ([e3] + []));
    assert (0, c) in again.counted && (1, c) in again.counted;
    assert Run(s, es) == again;
  }

  lemma RunOne(s: State, e: Event, es: seq<Event>)
    requires Allowed(s, e) && IsRun(Next(s, e), es)
    ensures IsRun(s, [e] + es) && Run(s, [e] + es) == Run(Next(s, e), es)
  {
    assert ([e] + es)[1..] == es;
  }

  // ----- What an evaluation counts, in plain terms -----

  /**
   A version in force counts the days from the later of its two starts to its end, or to today, in its house or in all.
   */
  lemma CountedExactlyWhen(v: Version, today: int, data: set<Cell>, c: Cell)
    ensures c in CountedCells(v, today, data) <==>
            && c in data && !v.superseded && (v.terms.house == None || v.terms.house == Some(c.house))
            && v.startDate <= c.day && v.effectiveFrom <= c.day
            && c.day <= (match v.endDate case None => today case Some(end) => end)
  {
  }

  // ----- What an edit changes, in plain terms -----

  function Given<T>(asked: Option<T>, kept: T): T {
    match asked
    case None => kept
    case Some(x) => x
  }

  /**
   The version after a structural edit: what is asked for, and the rest as before; it counts from today or from
   tomorrow.
   */
  ghost predicate CarriesEdit(v: Version, from: Version, e: Edit, today: int) {
    && v.rule == from.rule && v.number == from.number + 1 && !v.superseded
    && v.terms.cpaPerPrize == Given(e.cpaPerPrize, from.terms.cpaPerPrize)
    && v.terms.prizeType == Given(e.prizeType, from.terms.prizeType)
    && v.terms.prizeValue == Given(e.prizeValue, from.terms.prizeValue)
    && v.terms.countMode == Given(e.countMode, from.terms.countMode)
    && (e.house == None ==> v.terms.house == from.terms.house)
    && (e.house == Some("") ==> v.terms.house == None)
    && (e.house.Some? && e.house.value != "" ==> v.terms.house == e.house)
    && v.startDate == Given(e.startDate, from.startDate) && v.endDate == Given(e.endDate, from.endDate)
    && v.effectiveFrom == (if e.applySameDay then today else today + 1)
  }

  /** The edit asks for something that a new version is made for. */
  predicate AsksForMore(e: Edit) {
    !(e.cpaPerPrize == None && e.prizeValue == None && e.prizeType == None && e.countMode == None && e.house == None
      && e.startDate == None && e.endDate == None)
  }

  /** Everything a committed edit changes: the rule's active flag and, if it asks for more, its versions. */
  lemma EditMeans(b: Book, rule: string, current: nat, e: Edit, today: int)
    requires current < |b.versions| && CommitEdit(b, rule, current, e, today).1 == Committed
        && b.versions[current].rule == rule
    ensures rule in b.rules
    ensures var after, n := CommitEdit(b, rule, current, e, today).0, |b.versions|;
            && after.rules.Keys == b.rules.Keys
            && after.rules[rule].active == Given(e.active, b.rules[rule].active)
            && after.rules[rule].archived == b.rules[rule].archived
            && (forall r | r in b.rules && r != rule :: after.rules[r] == b.rules[r])
            && (AsksForMore(e) ==>
                  && |after.versions| == n + 1 && after.rules[rule].currentVersionId == n
                  && CarriesEdit(after.versions[n], b.versions[current], e, today)
                  && after.versions[current] == b.versions[current].(superseded := true)
                  && forall i | 0 <= i < n && i != current :: after.versions[i] == b.versions[i])
            && (!AsksForMore(e) ==>
                  && after.versions == b.versions
                  && after.rules[rule].currentVersionId == b.rules[rule].currentVersionId)
  {
  }

  /** Edits that fail change nothing, and only for two reasons. */
  lemma EditFailsExactlyWhen(b: Book, rule: string, current: nat, e: Edit, today: int)
    requires current < |b.versions|
    ensures CommitEdit(b, rule, current, e, today).1 == Failed <==>
            rule !in b.rules ||
            (AsksForMore(e) && exists i | 0 <= i < |b.versions| ::
              b.versions[i].rule == b.versions[current].rule && b.versions[i].number == b.versions[current].number + 1)
    ensures CommitEdit(b, rule, current, e, today).1 == Failed ==> CommitEdit(b, rule, current, e, today).0 == b
  {
  }

  /** A removed rule is gone, or archived and inactive; its versions and all other rules stay. */
  lemma RemoveMeans(b: Book, rule: string, hasHistory: bool)
    ensures var after := Remove(b, rule, hasHistory);
            && after.versions == b.versions
            && (rule in after.rules <==> rule in b.rules && hasHistory)
            && (rule in after.rules ==> after.rules[rule].archived && !after.rules[rule].active
                                        && after.rules[rule].currentVersionId == b.rules[rule].currentVersionId)
            && (forall r | r != rule ::
                (r in after.rules <==> r in b.rules) && (r in b.rules ==> after.rules[r] == b.rules[r]))
  {
  }
}
