/**
 Refreshes that overlap.  A refresh reads the shown token, for a revoked one it then looks for a live successor, and
 only after that it writes; other calls can write in between.  Every access to the tables is a step of its own.
 */
module RefreshRaces {
  import opened Basics
  import opened RefreshTokens

  /** What a call is going to write. */
  datatype Plan = RevokeShown | RevokeFamily | RevokeUser | RotateShown | RotateFamily

  /**
   A call after its first read: `stored` and `standing` are what it saw; a call without a plan looks for a successor
   next.
   */
  datatype Call = Call(stored: Token, standing: bool, plan: Option<Plan>)

  datatype World = World(now: int, users: map<string, User>, tokens: seq<Token>, calls: map<nat, Call>)

  datatype Step =
    | Wait(ms: nat)
    | SetUser(user: string, to: User)
    | SignIn(user: string, hash: string, family: string)
    | RevokeAll(where: Where)
    | Read(c: nat, hash: string)
    | LookUp(c: nat)
    | Write(c: nat, newHash: string)
    | Lose(c: nat)

  predicate Fresh(tokens: seq<Token>, hash: string) {
    forall i | 0 <= i < |tokens| :: tokens[i].hash != hash
  }

  /**
   `RevokeAll` stands for a logout, a reset or a change of the password; `Lose` for a call that fails before it writes.
   */
  predicate CanStep(w: World, a: Step) {
    match a
    case SignIn(_, hash, family) => Fresh(w.tokens, hash) && forall i | 0 <= i < |w.tokens| ::
        w.tokens[i].family != family
    case Read(c, _) => c !in w.calls
    case LookUp(c) => c in w.calls && w.calls[c].plan.None?
    case Write(c, newHash) => c in w.calls && w.calls[c].plan.Some? && Fresh(w.tokens, newHash)
    case Lose(c) => c in w.calls
    case _ => true
  }

  /** The decision after the first read. */
  function PlanOf(t: Token, standing: bool, now: int): Option<Plan> {
    if t.revoked then None
    else if t.expiresAt < now then Some(RevokeShown)
    else if !standing then Some(RevokeUser)
    else Some(RotateShown)
  }

  function PlanForRevoked(tokens: seq<Token>, call: Call, now: int): Plan {
    if !HasLiveSuccessor(tokens, call.stored, now) then RevokeFamily
    else if !call.standing then RevokeUser
    else RotateFamily
  }

  function Written(tokens: seq<Token>, t: Token, plan: Plan, newHash: string, now: int): seq<Token> {
    match plan
    case RevokeShown => Revoke(tokens, WithHash(t.hash))
    case RevokeFamily => Revoke(tokens, OfFamily(t.family))
    case RevokeUser => Revoke(tokens, OfUser(t.user))
    case RotateShown => Issue(Revoke(tokens, WithHash(t.hash)), t.user, t.family, newHash, now)
    case RotateFamily => Issue(Revoke(tokens, OfFamily(t.family)), t.user, t.family, newHash, now)
  }

  function TokensAfter(w: World, a: Step): seq<Token>
    requires CanStep(w, a)
  {
    match a
    case SignIn(user, hash, family) => Issue(w.tokens, user, family, hash, w.now)
    case RevokeAll(where) => Revoke(w.tokens, where)
    case Write(c, newHash) => Written(w.tokens, w.calls[c].stored, w.calls[c].plan.value, newHash, w.now)
    case _ => w.tokens
  }

  function CallsAfter(w: World, a: Step): map<nat, Call>
    requires CanStep(w, a)
  {
    match a
    case Read(c, hash) =>
      (match Find(w.tokens, hash)
       case None => w.calls
       case Some(t) =>
         var standing := t.user in w.users && InGoodStanding(w.users[t.user]);
         w.calls[c := Call(t, standing, PlanOf(t, standing, w.now))])
    case LookUp(c) => w.calls[c := w.calls[c].(plan := Some(PlanForRevoked(w.tokens, w.calls[c], w.now)))]
    case Write(c, _) => w.calls - {c}
    case Lose(c) => w.calls - {c}
    case _ => w.calls
  }

  function After(w: World, a: Step): World
    requires CanStep(w, a)
  {
    World(if a.Wait? then w.now + a.ms else w.now, if a.SetUser? then w.users[a.user := a.to] else w.users,
          TokensAfter(w, a), CallsAfter(w, a))
  }

  ghost predicate StepAt(worlds: seq<World>, steps: seq<Step>, n: nat) {
    n < |steps| && n + 1 < |worlds| && CanStep(worlds[n], steps[n]) && worlds[n + 1] == After(worlds[n], steps[n])
  }

  ghost predicate IsHistory(worlds: seq<World>, steps: seq<Step>) {
    && |worlds| == |steps| + 1 && worlds[0].tokens == [] && worlds[0].calls == map[]
    && forall n: nat | n < |steps| :: StepAt(worlds, steps, n)
  }

  /** Nothing in between: the two or three steps of a call do what the refresh does as one step. */
  lemma AloneIsRefresh(w: World, c: nat, hash: string, newHash: string)
    requires c !in w.calls && Fresh(w.tokens, newHash)
    ensures var read := After(w, Read(c, hash));
            var after := RefreshOutcome(w.users, w.tokens, hash, newHash, w.now).0;
            if Find(w.tokens, hash).None? then read == w && after == w.tokens
            else
              && c in read.calls && read.tokens == w.tokens
              && var ready := if read.calls[c].plan.None? then After(read, LookUp(c)) else read;
                 && CanStep(ready, Write(c, newHash)) && After(ready, Write(c, newHash)).tokens == after
                 && After(ready, Write(c, newHash)).calls == w.calls
  {
    if Find(w.tokens, hash).Some? {
      FindMeans(w.tokens, hash);
      var read := After(w, Read(c, hash));
      assert read.calls - {c} == w.calls;
    }
  }

  // ----- What calls have seen -----

  ghost predicate DistinctHashes(tokens: seq<Token>) {
    forall i, j | 0 <= i < j < |tokens| :: tokens[i].hash != tokens[j].hash
  }

  /** Row `i` is the token that was seen, perhaps revoked since. */
  predicate IsRowOf(tokens: seq<Token>, i: nat, seen: Token) {
    i < |tokens| && tokens[i].(revoked := seen.revoked) == seen && (seen.revoked ==> tokens[i].revoked)
  }

  ghost predicate Seen(tokens: seq<Token>, seen: Token) {
    exists i: nat :: IsRowOf(tokens, i, seen)
  }

  ghost predicate SeenByCalls(w: World) {
    forall c | c in w.calls ::
        Seen(w.tokens, w.calls[c].stored) && (w.calls[c].plan == Some(RotateShown) ==> !w.calls[c].stored.revoked)
  }

  ghost predicate Kept(before: seq<Token>, after: seq<Token>) {
    |before| <= |after| && forall i: nat | i < |before| :: IsRowOf(after, i, before[i])
  }

  lemma SeenStays(before: seq<Token>, after: seq<Token>, seen: Token)
    requires Kept(before, after) && Seen(before, seen)
    ensures Seen(after, seen)
  {
    var i: nat :| IsRowOf(before, i, seen);
    assert IsRowOf(after, i, before[i]) && IsRowOf(after, i, seen);
  }

  lemma StepKeepsTokens(w: World, a: Step)
    requires CanStep(w, a) && DistinctHashes(w.tokens)
    ensures Kept(w.tokens, After(w, a).tokens) && DistinctHashes(After(w, a).tokens)
  {
  }

  lemma StepKeepsSeen(w: World, a: Step)
    requires CanStep(w, a) && DistinctHashes(w.tokens) && SeenByCalls(w)
    ensures SeenByCalls(After(w, a))
  {
    StepKeepsTokens(w, a);
    forall c | c in After(w, a).calls
      ensures Seen(After(w, a).tokens, After(w, a).calls[c].stored)
      ensures After(w, a).calls[c].plan == Some(RotateShown) ==> !After(w, a).calls[c].stored.revoked
    {
      if a.Read? && a.c == c {
        FindMeans(w.tokens, a.hash);
        var i :| 0 <= i < |w.tokens| && w.tokens[i] == Find(w.tokens, a.hash).value;
        assert IsRowOf(w.tokens, i, w.tokens[i]);
      } else {
        SeenStays(w.tokens, After(w, a).tokens, w.calls[c].stored);
      }
    }
  }

  lemma {:induction false} SeenAlways(worlds: seq<World>, steps: seq<Step>, n: nat)
    requires IsHistory(worlds, steps) && n < |worlds|
    ensures DistinctHashes(worlds[n].tokens) && SeenByCalls(worlds[n])
  {
    if n > 0 {
      assert StepAt(worlds, steps, n - 1);
      SeenAlways(worlds, steps, n - 1);
      StepKeepsTokens(worlds[n - 1], steps[n - 1]);
      StepKeepsSeen(worlds[n - 1], steps[n - 1]);
    }
  }

  // ----- At most one live token -----

  ghost predicate OneLive(tokens: seq<Token>) {
    forall i, j | 0 <= i < j < |tokens| && tokens[i].family == tokens[j].family ::
        tokens[i].revoked || tokens[j].revoked
  }

  /** The token with the hash is not revoked. */
  predicate IsUnrevoked(tokens: seq<Token>, hash: string) {
    exists i | 0 <= i < |tokens| :: tokens[i].hash == hash && !tokens[i].revoked
  }

  /** The step replaces a token that another call has revoked meanwhile, in a family that has a live token. */
  predicate Doubles(w: World, a: Step)
    requires CanStep(w, a)
  {
    a.Write? && w.calls[a.c].plan == Some(RotateShown) &&
    var t := w.calls[a.c].stored;
    !IsUnrevoked(w.tokens, t.hash) && !Dead(w.tokens, t.family)
  }

  lemma StepKeepsOneLive(w: World, a: Step)
    requires CanStep(w, a) && DistinctHashes(w.tokens) && SeenByCalls(w) && OneLive(w.tokens)
    ensures OneLive(After(w, a).tokens) <==> !Doubles(w, a)
  {
    if a.Write? && w.calls[a.c].plan == Some(RotateShown) {
      var t := w.calls[a.c].stored;
      var after, n := After(w, a).tokens, |w.tokens|;
      var k: nat :| IsRowOf(w.tokens, k, t);
      assert IsUnrevoked(w.tokens, t.hash) <==> !w.tokens[k].revoked by {
        if i :| 0 <= i < n && w.tokens[i].hash == t.hash && !w.tokens[i].revoked {
          assert i == k || i < k || k < i;
        }
      }
      if Doubles(w, a) {
        var i :| 0 <= i < n && w.tokens[i].family == t.family && !w.tokens[i].revoked;
        assert after[i].family == after[n].family && !after[i].revoked && !after[n].revoked;
      } else {
        forall i | 0 <= i < n && w.tokens[i].family == t.family
          ensures after[i].revoked
        {
          assert i == k || i < k || k < i;
        }
      }
    }
  }

  ghost predicate DoublesAt(worlds: seq<World>, steps: seq<Step>, n: nat) {
    StepAt(worlds, steps, n) && Doubles(worlds[n], steps[n])
  }

  ghost predicate OneLiveAt(worlds: seq<World>, n: nat) {
    n < |worlds| && OneLive(worlds[n].tokens)
  }

  lemma {:induction false} NothingDoubled(worlds: seq<World>, steps: seq<Step>, n: nat)
    requires IsHistory(worlds, steps) && n < |worlds| && forall m: nat | m < n :: !DoublesAt(worlds, steps, m)
    ensures OneLiveAt(worlds, n)
  {
    if n > 0 {
      assert StepAt(worlds, steps, n - 1) && !DoublesAt(worlds, steps, n - 1);
      NothingDoubled(worlds, steps, n - 1);
      SeenAlways(worlds, steps, n - 1);
      StepKeepsOneLive(worlds[n - 1], steps[n - 1]);
    }
  }

  /** Every family has one live token at most throughout a history exactly if no write doubles it. */
  lemma OneLiveExactlyWhen(worlds: seq<World>, steps: seq<Step>, n: nat)
    requires IsHistory(worlds, steps) && n < |worlds|
    ensures (forall m: nat | m <= n :: OneLiveAt(worlds, m)) <==> forall m: nat | m < n :: !DoublesAt(worlds, steps, m)
  {
    if forall m: nat | m < n :: !DoublesAt(worlds, steps, m) {
      forall m: nat | m <= n
        ensures OneLiveAt(worlds, m)
      {
        NothingDoubled(worlds, steps, m);
      }
    } else {
      var m: nat :| m < n && DoublesAt(worlds, steps, m);
      SeenAlways(worlds, steps, m);
      if OneLiveAt(worlds, m) {
        StepKeepsOneLive(worlds[m], steps[m]);
        assert !OneLiveAt(worlds, m + 1);
      }
    }
  }

  // ----- Dead families -----

  /** The step issues a token for the family. */
  predicate Revives(w: World, a: Step, family: string)
    requires CanStep(w, a)
  {
    a.Write? && (w.calls[a.c].plan == Some(RotateShown) || w.calls[a.c].plan == Some(RotateFamily))
        && w.calls[a.c].stored.family == family
  }

  /** A dead family lives again exactly if a refresh that read it before it died writes only now. */
  lemma DeadStaysExactlyWhen(w: World, a: Step, family: string)
    requires CanStep(w, a) && Dead(w.tokens, family) && Known(w.tokens, family)
    ensures Dead(After(w, a).tokens, family) <==> !Revives(w, a, family)
  {
    if Revives(w, a, family) {
      assert After(w, a).tokens[|w.tokens|].family == family && !After(w, a).tokens[|w.tokens|].revoked;
    }
  }

  // ----- Calls that are left alone -----

  /** The step writes to the tokens of the user. */
  predicate Touches(w: World, a: Step, user: string)
    requires CanStep(w, a)
  {
    match a
    case RevokeAll(where) => exists i | 0 <= i < |w.tokens| :: Matches(where, w.tokens[i]) && w.tokens[i].user == user
    case Write(c, _) => w.calls[c].stored.user == user
    case _ => false
  }

  /** While a call for a user is under way, nothing but the call itself writes to the user's tokens. */
  ghost predicate LeftAlone(w: World, a: Step)
    requires CanStep(w, a)
  {
    forall c | c in w.calls && Touches(w, a, w.calls[c].stored.user) :: a.Write? && a.c == c
  }

  /** A family has one user. */
  ghost predicate OneUser(tokens: seq<Token>) {
    forall i, j | 0 <= i < j < |tokens| && tokens[i].family == tokens[j].family :: tokens[i].user == tokens[j].user
  }

  /** The decision of a call about to issue a token still holds. */
  ghost predicate PlanHolds(tokens: seq<Token>, call: Call) {
    && (call.plan == Some(RotateShown) ==> IsUnrevoked(tokens, call.stored.hash))
    && (call.plan == Some(RotateFamily) ==> !Dead(tokens, call.stored.family))
  }

  ghost predicate PlansHold(w: World) {
    forall c | c in w.calls :: PlanHolds(w.tokens, w.calls[c])
  }

  lemma UserOfFamily(tokens: seq<Token>, seen: Token, i: nat)
    requires Seen(tokens, seen) && OneUser(tokens) && i < |tokens| && tokens[i].family == seen.family
    ensures tokens[i].user == seen.user
  {
    var k: nat :| IsRowOf(tokens, k, seen);
    assert i == k || i < k || k < i;
  }

  lemma RowOfHash(tokens: seq<Token>, seen: Token, i: nat)
    requires Seen(tokens, seen) && DistinctHashes(tokens) && i < |tokens| && tokens[i].hash == seen.hash
    ensures IsRowOf(tokens, i, seen)
  {
    var k: nat :| IsRowOf(tokens, k, seen);
    assert i == k || i < k || k < i;
  }

  /** Families and users of old tokens are as before, and a new token goes to the user of its family. */
  ghost predicate OwnersKept(before: seq<Token>, after: seq<Token>) {
    && |before| <= |after| <= |before| + 1
    && (forall i | 0 <= i < |before| :: after[i].family == before[i].family && after[i].user == before[i].user)
    && (|after| > |before| ==> forall i | 0 <= i < |before| && before[i].family == after[|before|].family ::
        before[i].user == after[|before|].user)
  }

  lemma OwnersKeptKeepOneUser(before: seq<Token>, after: seq<Token>)
    requires OneUser(before) && OwnersKept(before, after)
    ensures OneUser(after)
  {
  }

  lemma StepKeepsOneUser(w: World, a: Step)
    requires CanStep(w, a) && SeenByCalls(w) && OneUser(w.tokens)
    ensures OneUser(After(w, a).tokens)
  {
    if a.Write? {
      forall i | 0 <= i < |w.tokens| && w.tokens[i].family == w.calls[a.c].stored.family
        ensures w.tokens[i].user == w.calls[a.c].stored.user
      {
        UserOfFamily(w.tokens, w.calls[a.c].stored, i);
      }
    }
    OwnersKeptKeepOneUser(w.tokens, After(w, a).tokens);
  }

  /** Tokens of a user that the step does not touch stay as they are. */
  lemma UntouchedStay(w: World, a: Step, i: nat)
    requires CanStep(w, a) && i < |w.tokens| && !Touches(w, a, w.tokens[i].user)
    requires SeenByCalls(w) && DistinctHashes(w.tokens) && OneUser(w.tokens)
    ensures i < |After(w, a).tokens| && After(w, a).tokens[i] == w.tokens[i]
  {
    if a.Write? {
      var t := w.calls[a.c].stored;
      if w.tokens[i].family == t.family {
        UserOfFamily(w.tokens, t, i);
      }
      if w.tokens[i].hash == t.hash {
        RowOfHash(w.tokens, t, i);
      }
    }
  }

  lemma StepKeepsPlan(w: World, a: Step, c: nat)
    requires CanStep(w, a) && c in After(w, a).calls && LeftAlone(w, a) && PlansHold(w)
    requires SeenByCalls(w) && DistinctHashes(w.tokens) && OneUser(w.tokens)
    ensures PlanHolds(After(w, a).tokens, After(w, a).calls[c])
  {
    var call := After(w, a).calls[c];
    if a.Read? && a.c == c {
      FindMeans(w.tokens, a.hash);
    } else if call.plan == Some(RotateShown) {
      assert PlanHolds(w.tokens, w.calls[c]);
      var i :| 0 <= i < |w.tokens| && w.tokens[i].hash == call.stored.hash && !w.tokens[i].revoked;
      RowOfHash(w.tokens, call.stored, i);
      UntouchedStay(w, a, i);
    } else if call.plan == Some(RotateFamily) {
      var i := LiveOf(w, a, c);
      UserOfFamily(w.tokens, call.stored, i);
      UntouchedStay(w, a, i);
    }
  }

  /** A call that is to rotate its family has a live token there, seen by this step or before it. */
  lemma LiveOf(w: World, a: Step, c: nat) returns (i: nat)
    requires CanStep(w, a) && c in w.calls && c in After(w, a).calls && PlansHold(w) && (a.Read? ==> a.c != c)
    requires After(w, a).calls[c].plan == Some(RotateFamily)
    ensures i < |w.tokens| && w.tokens[i].family == w.calls[c].stored.family && !w.tokens[i].revoked
  {
    if a.LookUp? && a.c == c {
      i :| i < |w.tokens| && IsLiveSuccessor(w.tokens[i], w.calls[c].stored, w.now);
    } else {
      i :| i < |w.tokens| && w.tokens[i].family == w.calls[c].stored.family && !w.tokens[i].revoked;
    }
  }

  ghost predicate LeftAloneAt(worlds: seq<World>, steps: seq<Step>, n: nat) {
    StepAt(worlds, steps, n) ==> LeftAlone(worlds[n], steps[n])
  }

  /** No issue is based on an outdated decision. */
  ghost predicate NothingStale(w: World, a: Step)
    requires CanStep(w, a)
  {
    !Doubles(w, a) && forall family | Dead(w.tokens, family) && Known(w.tokens, family) :: !Revives(w, a, family)
  }

  lemma NothingIsStale(w: World, a: Step)
    requires CanStep(w, a) && PlansHold(w) && SeenByCalls(w) && DistinctHashes(w.tokens)
    ensures NothingStale(w, a)
  {
    forall family | Dead(w.tokens, family)
      ensures !Revives(w, a, family)
    {
    }
  }

  lemma StepKeepsPlans(w: World, a: Step)
    requires CanStep(w, a) && LeftAlone(w, a) && PlansHold(w)
    requires SeenByCalls(w) && DistinctHashes(w.tokens) && OneUser(w.tokens)
    ensures PlansHold(After(w, a))
  {
    forall c | c in After(w, a).calls
      ensures PlanHolds(After(w, a).tokens, After(w, a).calls[c])
    {
      StepKeepsPlan(w, a, c);
    }
  }

  lemma {:induction false} PlansAlwaysHold(worlds: seq<World>, steps: seq<Step>, n: nat)
    requires IsHistory(worlds, steps) && n < |worlds| && forall m: nat | m < n :: LeftAloneAt(worlds, steps, m)
    ensures PlansHold(worlds[n]) && OneUser(worlds[n].tokens)
  {
    if n > 0 {
      assert StepAt(worlds, steps, n - 1) && LeftAloneAt(worlds, steps, n - 1);
      PlansAlwaysHold(worlds, steps, n - 1);
      SeenAlways(worlds, steps, n - 1);
      StepKeepsOneUser(worlds[n - 1], steps[n - 1]);
      StepKeepsPlans(worlds[n - 1], steps[n - 1]);
    }
  }

  /**
   As long as nothing else writes to a user's tokens during a refresh, nothing is doubled and no dead family lives
   again.
   */
  lemma AloneIsSafe(worlds: seq<World>, steps: seq<Step>, n: nat)
    requires IsHistory(worlds, steps) && n < |steps| && forall m: nat | m < n :: LeftAloneAt(worlds, steps, m)
    ensures StepAt(worlds, steps, n) && NothingStale(worlds[n], steps[n])
  {
    assert StepAt(worlds, steps, n);
    PlansAlwaysHold(worlds, steps, n);
    SeenAlways(worlds, steps, n);
    NothingIsStale(worlds[n], steps[n]);
  }

  lemma SignInAndTwoReads(user: string, standing: User, t: Token, call: Call)
    returns (w0: World, w1: World, w2: World, w3: World)
    requires InGoodStanding(standing) && call == Call(t, true, Some(RotateShown))
    requires t == Token("a", user, "family", 0, REFRESH_TOKEN_EXPIRY_MS, false)
    ensures w0.tokens == [] && w0.calls == map[]
    ensures CanStep(w0, SignIn(user, "a", "family")) && w1 == After(w0, SignIn(user, "a", "family"))
    ensures CanStep(w1, Read(0, "a")) && w2 == After(w1, Read(0, "a"))
    ensures CanStep(w2, Read(1, "a")) && w3 == After(w2, Read(1, "a"))
    ensures w3.tokens == [t] && w3.calls == map[0 := call, 1 := call]
  {
    w0 := World(0, map[user := standing], [], map[]);
    w1 := After(w0, SignIn(user, "a", "family"));
    assert w1.tokens == [t];
    assert Find(w1.tokens, "a") == Some(t);
    w2 := After(w1, Read(0, "a"));
    assert w2.calls == map[0 := call];
    w3 := After(w2, Read(1, "a"));
  }

  lemma FiveSteps(w0: World, w1: World, w2: World, w3: World, w4: World, w5: World, steps: seq<Step>)
    requires |steps| == 5 && w0.tokens == [] && w0.calls == map[]
    requires CanStep(w0, steps[0]) && w1 == After(w0, steps[0]) && CanStep(w1, steps[1]) && w2 == After(w1, steps[1])
    requires CanStep(w2, steps[2]) && w3 == After(w2, steps[2]) && CanStep(w3, steps[3]) && w4 == After(w3, steps[3])
    requires CanStep(w4, steps[4]) && w5 == After(w4, steps[4])
    ensures IsHistory([w0, w1, w2, w3, w4, w5], steps)
  {
  }

  /** Two refreshes of one token that both read before either writes leave two live tokens. */
  lemma OverlapLeavesTwo(user: string, standing: User) returns (worlds: seq<World>, steps: seq<Step>)
    requires InGoodStanding(standing)
    ensures IsHistory(worlds, steps) && !OneLive(worlds[|steps|].tokens)
  {
    var t := Token("a", user, "family", 0, REFRESH_TOKEN_EXPIRY_MS, false);
    var call := Call(t, true, Some(RotateShown));
    var w0, w1, w2, w3 := SignInAndTwoReads(user, standing, t, call);
    var w4, w5 := TwoWrites(w3, t, call);
    worlds := [w0, w1, w2, w3, w4, w5];
    steps := [SignIn(user, "a", "family"), Read(0, "a"), Read(1, "a"), Write(0, "b"), Write(1, "c")];
    FiveSteps(w0, w1, w2, w3, w4, w5, steps);
  }

  lemma TwoWrites(w: World, t: Token, call: Call) returns (w1: World, w2: World)
    requires w.tokens == [t] && t.hash == "a" && !t.revoked && call == Call(t, true, Some(RotateShown))
        && w.calls == map[0 := call, 1 := call]
    ensures CanStep(w, Write(0, "b")) && w1 == After(w, Write(0, "b"))
    ensures CanStep(w1, Write(1, "c")) && w2 == After(w1, Write(1, "c")) && !OneLive(w2.tokens)
  {
    w1 := After(w, Write(0, "b"));
    assert |w1.tokens| == 2 && w1.tokens[0].hash == "a" && w1.tokens[1].hash == "b" && w1.calls == map[1 := call];
    w2 := After(w1, Write(1, "c"));
    assert |w2.tokens| == 3 && !w2.tokens[1].revoked && !w2.tokens[2].revoked
        && w2.tokens[1].family == w2.tokens[2].family;
  }
}
