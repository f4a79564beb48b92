/**
 Which sessions survive: exactly which events end a refresh-token family, and what a block does to it.
 */
module SessionSurvival {
  import opened Basics
  import opened RefreshTokens

  predicate Stands(s: State, user: string) {
    user in s.users && InGoodStanding(s.users[user])
  }

  /** The events that end a live family of a user.  A refused refresh of another family can be one of them. */
  predicate EndsFamily(s: State, e: Event, family: string, user: string) {
    match e
    case DoLogout(hash) => Find(s.tokens, hash).Some? && Find(s.tokens, hash).value.family == family
    case DoReset(resetHash) => ResetWorks(s.users, s.resets, resetHash, s.now) && s.resets[resetHash].user == user
    case DoSetPassword(u) => u == user && user in s.users
    case DoRefresh(hash, _) =>
      !Accepts(s, hash) && Find(s.tokens, hash).Some? &&
      var t := Find(s.tokens, hash).value;
      || t.family == family
      || (t.user == user && if t.revoked then HasLiveSuccessor(s.tokens, t, s.now) else t.expiresAt >= s.now)
    case _ => false
  }

  predicate NothingEnds(s: State, es: seq<Event>, family: string, user: string)
    decreases |es|
  {
    es == [] || (!EndsFamily(s, es[0], family, user) && NothingEnds(Next(s, es[0]), es[1..], family, user))
  }

  /** The event replaces the live token of the family. */
  predicate Renews(s: State, e: Event, family: string) {
    e.DoRefresh? && Accepts(s, e.hash) && Find(s.tokens, e.hash).Some? && Find(s.tokens, e.hash).value.family == family
  }

  /** When the family's live token expires after the events, if it expires at `expiry` before. */
  function ExpiryAfter(s: State, es: seq<Event>, family: string, expiry: int): int
    decreases |es|
  {
    if es == [] then expiry
    else
      ExpiryAfter(Next(s, es[0]), es[1..], family, if Renews(s, es[0], family)
          then s.now + REFRESH_TOKEN_EXPIRY_MS else expiry)
  }

  /** Token `i` is the live token of the family, which belongs to the user. */
  predicate IsLiveToken(tokens: seq<Token>, i: nat, family: string, user: string, expiry: int) {
    && i < |tokens| && tokens[i].family == family && tokens[i].user == user && tokens[i].expiresAt == expiry
    && !tokens[i].revoked
  }

  /**
   An accepted refresh of another family, or a refused one that does not end this family, leaves its live token alone.
   */
  lemma OthersMove(s: State, hash: string, newHash: string, i: nat, family: string, user: string, expiry: int)
    requires Orderly(s.tokens, s.now) && IsLiveToken(s.tokens, i, family, user, expiry)
    requires !EndsFamily(s, DoRefresh(hash, newHash), family, user) && !Renews(s, DoRefresh(hash, newHash), family)
    ensures IsLiveToken(Next(s, DoRefresh(hash, newHash)).tokens, i, family, user, expiry)
  {
    FindMeans(s.tokens, hash);
    OneUserPerFamily(s.tokens, i, s.now);
  }

  lemma RefreshMoves(s: State, hash: string, newHash: string, i: nat, family: string, user: string, expiry: int)
    returns (j: nat)
    requires Orderly(s.tokens, s.now) && IsLiveToken(s.tokens, i, family, user, expiry)
    requires !EndsFamily(s, DoRefresh(hash, newHash), family, user)
    ensures IsLiveToken(Next(s, DoRefresh(hash, newHash)).tokens, j, family, user,
                        if Renews(s, DoRefresh(hash, newHash), family) then s.now + REFRESH_TOKEN_EXPIRY_MS else expiry)
  {
    if Renews(s, DoRefresh(hash, newHash), family) {
      FindMeans(s.tokens, hash);
      OneUserPerFamily(s.tokens, i, s.now);
      j := |s.tokens|;
    } else {
      OthersMove(s, hash, newHash, i, family, user, expiry);
      j := i;
    }
  }

  lemma SurvivesStep(s: State, e: Event, i: nat, family: string, user: string, expiry: int) returns (j: nat)
    requires Orderly(s.tokens, s.now) && Allowed(s, e) && IsLiveToken(s.tokens, i, family, user, expiry)
    requires !EndsFamily(s, e, family, user)
    ensures IsLiveToken(Next(s, e).tokens, j, family, user, if Renews(s, e, family)
        then s.now + REFRESH_TOKEN_EXPIRY_MS else expiry)
  {
    if e.DoRefresh? {
      j := RefreshMoves(s, e.hash, e.newHash, i, family, user, expiry);
    } else {
      j := i;
    }
  }

  lemma EndedStep(s: State, e: Event, i: nat, family: string, user: string, expiry: int)
    requires Orderly(s.tokens, s.now) && Allowed(s, e) && IsLiveToken(s.tokens, i, family, user, expiry)
    requires EndsFamily(s, e, family, user)
    ensures Dead(Next(s, e).tokens, family) && Known(Next(s, e).tokens, family)
  {
    OneUserPerFamily(s.tokens, i, s.now);
    assert i < |Next(s, e).tokens| && Next(s, e).tokens[i].family == family;
    if e.DoRefresh? {
      FindMeans(s.tokens, e.hash);
      var k :| 0 <= k < |s.tokens| && s.tokens[k] == Find(s.tokens, e.hash).value;
      RefusalKills(s, k, e.newHash);
    }
  }

  /** The family has a token that a refresh accepts. */
  ghost predicate FamilyAccepted(s: State, family: string) {
    exists i | 0 <= i < |s.tokens| :: s.tokens[i].family == family && Accepts(s, s.tokens[i].hash)
  }

  lemma LiveFamilyAccepted(s: State, i: nat, family: string, user: string, expiry: int)
    requires Orderly(s.tokens, s.now) && IsLiveToken(s.tokens, i, family, user, expiry)
    ensures FamilyAccepted(s, family) <==> Stands(s, user) && s.now <= expiry
  {
    OneUserPerFamily(s.tokens, i, s.now);
    AcceptedExactlyWhen(s, i);
    NewestMeans(s.tokens, family);
    if FamilyAccepted(s, family) {
      var k :| 0 <= k < |s.tokens| && s.tokens[k].family == family && Accepts(s, s.tokens[k].hash);
      AcceptedExactlyWhen(s, k);
      var n := Newest(s.tokens, family).value;
      assert n == i || i < n;
    }
  }

  lemma DeadFamilyRefused(s: State, family: string)
    requires Orderly(s.tokens, s.now) && Dead(s.tokens, family)
    ensures !FamilyAccepted(s, family)
  {
    if i :| 0 <= i < |s.tokens| && s.tokens[i].family == family && Accepts(s, s.tokens[i].hash) {
      AcceptedExactlyWhen(s, i);
      NewestMeans(s.tokens, family);
    }
  }

  /**
   A session that is live now is accepted after any further events exactly if none of them ended its family, its user
   is in good standing then, and its token, perhaps renewed on the way, has not expired.
   */
  lemma {:induction false} SessionSurvivesExactlyWhen(s: State, es: seq<Event>, i: nat, family: string, user: string,
                                                      expiry: int)
    requires Orderly(s.tokens, s.now) && IsRun(s, es) && IsLiveToken(s.tokens, i, family, user, expiry)
    ensures FamilyAccepted(Run(s, es), family) <==>
            NothingEnds(s, es, family, user) && Stands(Run(s, es), user)
                && Run(s, es).now <= ExpiryAfter(s, es, family, expiry)
    decreases |es|
  {
    if es == [] {
      LiveFamilyAccepted(s, i, family, user, expiry);
    } else {
      var e := es[0];
      StepKeepsOrder(s, e);
      if EndsFamily(s, e, family, user) {
        EndedStep(s, e, i, family, user, expiry);
        DeadFamilyStaysDead(Next(s, e), es[1..], family);
        AtMostOneLiveToken(Next(s, e), es[1..]);
        DeadFamilyRefused(Run(s, es), family);
      } else {
        var j := SurvivesStep(s, e, i, family, user, expiry);
        SessionSurvivesExactlyWhen(Next(s, e), es[1..], j, family, user,
                                   if Renews(s, e, family) then s.now + REFRESH_TOKEN_EXPIRY_MS else expiry);
      }
    }
  }

  /** No event writes the status of the user. */
  predicate StatusUntouched(es: seq<Event>, user: string) {
    forall e | e in es :: (e.ChangeUser? || e.DoBlock? || e.DoUnblock?) ==> e.user != user
  }

  lemma BlockedIsNotRenewed(s: State, e: Event, i: nat, family: string, user: string)
    requires Orderly(s.tokens, s.now) && user in s.users && s.users[user].status.BLOCKED?
    requires i < |s.tokens| && s.tokens[i].family == family && s.tokens[i].user == user
    ensures !Renews(s, e, family)
  {
    if e.DoRefresh? && Find(s.tokens, e.hash).Some? {
      FindMeans(s.tokens, e.hash);
      OneUserPerFamily(s.tokens, i, s.now);
    }
  }

  lemma StatusStays(s: State, e: Event, user: string)
    requires Allowed(s, e) && user in s.users && ((e.ChangeUser? || e.DoBlock? || e.DoUnblock?) ==> e.user != user)
    ensures user in Next(s, e).users && Next(s, e).users[user] == s.users[user]
  {
  }

  lemma TokenStays(s: State, e: Event, i: nat)
    requires i < |s.tokens|
    ensures i < |Next(s, e).tokens|
    ensures Next(s, e).tokens[i].family == s.tokens[i].family && Next(s, e).tokens[i].user == s.tokens[i].user
  {
  }

  lemma {:induction false} StaysBlocked(s: State, es: seq<Event>, i: nat, family: string, user: string, expiry: int)
    requires Orderly(s.tokens, s.now) && IsRun(s, es) && StatusUntouched(es, user) && user in s.users
        && s.users[user].status.BLOCKED?
    requires i < |s.tokens| && s.tokens[i].family == family && s.tokens[i].user == user
    ensures user in Run(s, es).users && Run(s, es).users[user].status.BLOCKED?
    ensures ExpiryAfter(s, es, family, expiry) == expiry
    decreases |es|
  {
    if es != [] {
      var e := es[0];
      assert e in es;
      BlockedIsNotRenewed(s, e, i, family, user);
      StatusStays(s, e, user);
      TokenStays(s, e, i);
      StepKeepsOrder(s, e);
      StaysBlocked(Next(s, e), es[1..], i, family, user, expiry);
    }
  }

  lemma BlockAndUnblock(s: State, user: string)
    requires user in s.users
    ensures user in Blocked(s.users, user) && Blocked(s.users, user)[user].status.BLOCKED?
    ensures s.users[user].status.BLOCKED? ==> !Stands(s, user) && Stands(Next(s, DoUnblock(user)), user)
  {
  }

  /**
   A block ends no session by itself.  One that was live is accepted again after the unblock exactly if nothing in
   between ended its family and its token has not expired; while the block lasts it is not accepted.
   */
  lemma BlockedSessionSurvivesExactlyWhen(s: State, es: seq<Event>, i: nat, family: string, user: string, expiry: int)
    requires Orderly(s.tokens, s.now) && user in s.users && IsLiveToken(s.tokens, i, family, user, expiry)
    requires IsRun(Next(s, DoBlock(user)), es) && StatusUntouched(es, user)
    ensures var blocked := Next(s, DoBlock(user));
            var during := Run(blocked, es);
            && !FamilyAccepted(during, family)
            && (FamilyAccepted(Next(during, DoUnblock(user)), family) <==>
                NothingEnds(blocked, es, family, user) && during.now <= expiry)
  {
    var blocked := Next(s, DoBlock(user));
    var during := Run(blocked, es);
    BlockAndUnblock(s, user);
    StaysBlocked(blocked, es, i, family, user, expiry);
    BlockAndUnblock(during, user);
    SessionSurvivesExactlyWhen(blocked, es, i, family, user, expiry);
    RunThen(blocked, es, DoUnblock(user), family, user, expiry);
    SessionSurvivesExactlyWhen(blocked, es + [DoUnblock(user)], i, family, user, expiry);
  }

  /** One more event, which is neither a refresh nor one that ends a family. */
  lemma {:induction false} RunThen(s: State, es: seq<Event>, e: Event, family: string, user: string, expiry: int)
    requires IsRun(s, es) && e.DoUnblock?
    ensures IsRun(s, es + [e]) && Run(s, es + [e]) == Next(Run(s, es), e)
    ensures NothingEnds(s, es + [e], family, user) <==> NothingEnds(s, es, family, user)
    ensures ExpiryAfter(s, es + [e], family, expiry) == ExpiryAfter(s, es, family, expiry)
    decreases |es|
  {
    if es == [] {
      assert es + [e] == [e] && [e][1..] == [];
    } else {
      assert (es + [e])[1..] == es[1..] + [e];
      RunThen(Next(s, es[0]), es[1..], e, family, user, if Renews(s, es[0], family)
          then s.now + REFRESH_TOKEN_EXPIRY_MS else expiry);
    }
  }

  /** From position `n` on, no token belongs to the user. */
  predicate NoneFrom(tokens: seq<Token>, n: nat, user: string) {
    n <= |tokens| && forall i | n <= i < |tokens| :: tokens[i].user != user
  }

  lemma BlockedGetsNoToken(s: State, e: Event, n: nat, user: string)
    requires Allowed(s, e) && user in s.users && s.users[user].status == BLOCKED && NoneFrom(s.tokens, n, user)
    ensures NoneFrom(Next(s, e).tokens, n, user)
  {
    if e.DoRefresh? && Find(s.tokens, e.hash).Some? {
      FindMeans(s.tokens, e.hash);
    }
  }

  /** From a block on, and as long as nothing else writes the status, no event issues a token to the user. */
  lemma {:induction false} BlockedGetsNothing(s: State, es: seq<Event>, user: string, n: nat)
    requires IsRun(s, es) && user in s.users && s.users[user].status == BLOCKED && StatusUntouched(es, user)
    requires NoneFrom(s.tokens, n, user)
    ensures NoneFrom(Run(s, es).tokens, n, user)
    decreases |es|
  {
    if es != [] {
      var e := es[0];
      assert e in es;
      StatusStays(s, e, user);
      BlockedGetsNoToken(s, e, n, user);
      BlockedGetsNothing(Next(s, e), es[1..], user, n);
    }
  }

  /** In particular after `DoBlock`: no login, refresh, reset or registration brings the user a new session. */
  lemma NoSessionAfterBlock(s: State, es: seq<Event>, user: string)
    requires user in s.users && IsRun(Next(s, DoBlock(user)), es) && StatusUntouched(es, user)
    ensures NoneFrom(Run(Next(s, DoBlock(user)), es).tokens, |s.tokens|, user)
  {
    BlockedGetsNothing(Next(s, DoBlock(user)), es, user, |s.tokens|);
  }

  /** Whoever does nothing while blocked keeps the session. */
  lemma BlockKeepsSessions(s: State, i: nat, user: string)
    requires Orderly(s.tokens, s.now) && user in s.users && i < |s.tokens| && s.tokens[i].user == user
    requires !s.tokens[i].revoked && s.now <= s.tokens[i].expiresAt
    ensures var blocked := Next(s, DoBlock(user));
            && !FamilyAccepted(blocked, s.tokens[i].family)
            && FamilyAccepted(Next(blocked, DoUnblock(user)), s.tokens[i].family)
  {
    BlockedSessionSurvivesExactlyWhen(s, [], i, s.tokens[i].family, user, s.tokens[i].expiresAt);
  }
}
