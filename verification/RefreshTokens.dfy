/**
 Refresh-token families: every login starts a family, every refresh replaces its live token.  Tokens are
 known by their hash; raw tokens, signatures and password checks are not part of the model.  Wrong passwords
 are counted, and too many of them lock the account for a while.  Each call is one step, instants are
 milliseconds.
 */
module RefreshTokens {
  import opened Basics

  const REFRESH_REUSE_GRACE_MS := 15_000
  const REFRESH_TOKEN_EXPIRY_MS := 7 * 24 * 60 * 60 * 1000
  const PASSWORD_RESET_TTL_MS := 30 * 60 * 1000

  const LOCKOUT_MAX_ATTEMPTS := 5
  const LOCKOUT_TTL_MS := 900 * 1000

  datatype UserStatus = PENDING | APPROVED | REJECTED | BLOCKED

  datatype User = User(active: bool, status: UserStatus, isExternal: bool, isAffiliate: bool)

  /** Rows are appended and revoked, never removed: a row's position tells how new it is. */
  datatype Token = Token(hash: string, user: string, family: string, createdAt: int, expiresAt: int, revoked: bool)

  datatype ResetToken = ResetToken(user: string, expiresAt: int, used: bool)

  datatype Where = OfFamily(family: string) | OfUser(user: string) | WithHash(hash: string)

  predicate Matches(where: Where, t: Token) {
    match where
    case OfFamily(f) => t.family == f
    case OfUser(u) => t.user == u
    case WithHash(h) => t.hash == h
  }

  /** `updateMany` to revoked. */
  function Revoke(tokens: seq<Token>, where: Where): (r: seq<Token>)
    ensures |r| == |tokens|
  {
    seq(|tokens|, i requires 0 <= i < |tokens| => if Matches(where, tokens[i])
        then tokens[i].(revoked := true) else tokens[i])
  }

  function Issue(tokens: seq<Token>, user: string, family: string, hash: string, now: int): seq<Token> {
    tokens + [Token(hash, user, family, now, now + REFRESH_TOKEN_EXPIRY_MS, false)]
  }

  function Find(tokens: seq<Token>, hash: string): Option<Token> {
    if tokens == [] then None else if tokens[0].hash == hash then Some(tokens[0]) else Find(tokens[1..], hash)
  }

  lemma {:induction false} FindAppends(tokens: seq<Token>, t: Token, hash: string)
    ensures Find(tokens + [t], hash) ==
            if Find(tokens, hash).Some? then Find(tokens, hash) else if t.hash == hash then Some(t) else None
  {
    if tokens != [] {
      assert (tokens + [t])[1..] == tokens[1..] + [t];
      FindAppends(tokens[1..], t, hash);
    }
  }

  /** The database finds a live token of this user and family under the hash, from now on for exactly seven days. */
  ghost predicate Holds(tokens: seq<Token>, hash: string, user: string, family: string, now: int) {
    var found := Find(tokens, hash);
    && found.Some? && found.value.user == user && found.value.family == family && found.value.createdAt == now
    && forall at :: IsLive(found.value, at) <==> at <= now + 604_800_000
  }

  predicate IsLive(t: Token, at: int) {
    !t.revoked && !(t.expiresAt < at)
  }

  /** Every token of the user is dead at all times; tokens of other users are as before. */
  ghost predicate OnlyUserRevoked(before: seq<Token>, after: seq<Token>, user: string) {
    && |after| == |before|
    && (forall i, at | 0 <= i < |after| && before[i].user == user :: !IsLive(after[i], at))
    && (forall i | 0 <= i < |after| && before[i].user != user :: after[i] == before[i])
    && (forall i | 0 <= i < |after| :: after[i].(revoked := before[i].revoked) == before[i])
  }

  predicate IsLiveSuccessor(t: Token, stored: Token, now: int) {
    && t.family == stored.family && !t.revoked
    && t.expiresAt > now && t.createdAt > stored.createdAt && t.createdAt >= now - REFRESH_REUSE_GRACE_MS
  }

  predicate HasLiveSuccessor(tokens: seq<Token>, stored: Token, now: int) {
    exists i | 0 <= i < |tokens| :: IsLiveSuccessor(tokens[i], stored, now)
  }

  predicate InGoodStanding(u: User) {
    u.active && !u.status.BLOCKED? && !u.status.REJECTED?
  }

  predicate MayLogIn(u: User) {
    !u.isExternal && u.status.APPROVED? && u.active
  }

  predicate MayReset(u: User) {
    !u.isExternal && u.isAffiliate && InGoodStanding(u)
  }

  // ----- Lockout -----

  /** The failures since the first one; the counter expires a fixed time after that. */
  datatype Attempts = Attempts(count: nat, expiresAt: int)

  type Lockout = map<string, Attempts>

  predicate Counting(lockout: Lockout, user: string, now: int) {
    user in lockout && now < lockout[user].expiresAt
  }

  predicate Locked(lockout: Lockout, user: string, now: int) {
    Counting(lockout, user, now) && lockout[user].count >= LOCKOUT_MAX_ATTEMPTS
  }

  /** One failure more; only the first sets the expiry. */
  function Failed(lockout: Lockout, user: string, now: int): Lockout {
    if Counting(lockout, user, now) then lockout[user := lockout[user].(count := lockout[user].count + 1)]
    else lockout[user := Attempts(1, now + LOCKOUT_TTL_MS)]
  }

  // ----- Accounts, in plain terms -----

  /** Active, and neither blocked nor rejected. */
  predicate IsUsable(u: User) {
    u.active && u.status in {PENDING, APPROVED}
  }

  /** An approved, active account of the platform's own users. */
  predicate IsWelcome(u: User) {
    u.active && u.status == APPROVED && !u.isExternal
  }

  /** An affiliate of the platform's own, in any state that can still be used. */
  predicate IsResettable(u: User) {
    u.isAffiliate && !u.isExternal && IsUsable(u)
  }

  /** Five failures or more are counted, and the quarter of an hour since the first is not over. */
  predicate IsShut(lockout: Lockout, user: string, now: int) {
    user in lockout && lockout[user].count >= 5 && lockout[user].expiresAt > now
  }

  /** A login is accepted exactly for the right password of a welcome account that is not locked. */
  lemma LoginAcceptedExactlyWhen(users: map<string, User>, lockout: Lockout, user: string, credentialsMatch: bool,
                                 now: int)
    ensures LoginOutcome(users, lockout, user, credentialsMatch, now).1 == Accepted <==>
            !IsShut(lockout, user, now) && credentialsMatch && user in users && IsWelcome(users[user])
  {
  }

  /** A reset works exactly for an unused, unexpired token of a resettable account. */
  lemma ResetWorksExactlyWhen(users: map<string, User>, resets: map<string, ResetToken>, resetHash: string, now: int)
    ensures ResetWorks(users, resets, resetHash, now) <==>
            && resetHash in resets && !resets[resetHash].used && now <= resets[resetHash].expiresAt
            && resets[resetHash].user in users && IsResettable(users[resets[resetHash].user])
  {
  }

  // ----- What the calls do to the tables -----

  datatype Session = Accepted | Refused

  /** A login: the counter is looked at first, and only a wrong password moves it. */
  function LoginOutcome(users: map<string, User>, lockout: Lockout, user: string, credentialsMatch: bool,
                        now: int): (Lockout, Session) {
    if Locked(lockout, user, now) then (lockout, Refused)
    else if user !in users || !credentialsMatch then (Failed(lockout, user, now), Refused)
    else if MayLogIn(users[user]) then (lockout - {user}, Accepted)
    else (lockout, Refused)
  }

  /** A refresh: rotation, recovery of a recent duplicate, or a refusal that revokes. */
  function RefreshOutcome(users: map<string, User>, tokens: seq<Token>, hash: string, newHash: string,
                          now: int): (seq<Token>, Session) {
    match Find(tokens, hash)
    case None => (tokens, Refused)
    case Some(stored) =>
      var standing := stored.user in users && InGoodStanding(users[stored.user]);
      if stored.revoked then
        if !HasLiveSuccessor(tokens, stored, now) then (Revoke(tokens, OfFamily(stored.family)), Refused)
        else if !standing then (Revoke(tokens, OfUser(stored.user)), Refused)
        else (Issue(Revoke(tokens, OfFamily(stored.family)), stored.user, stored.family, newHash, now), Accepted)
      else if stored.expiresAt < now then (Revoke(tokens, WithHash(hash)), Refused)
      else if !standing then (Revoke(tokens, OfUser(stored.user)), Refused)
      else (Issue(Revoke(tokens, WithHash(hash)), stored.user, stored.family, newHash, now), Accepted)
  }

  function LogoutOutcome(tokens: seq<Token>, hash: string): seq<Token> {
    match Find(tokens, hash)
    case None => tokens
    case Some(stored) => Revoke(tokens, OfFamily(stored.family))
  }

  predicate ResetWorks(users: map<string, User>, resets: map<string, ResetToken>, resetHash: string, now: int) {
    && resetHash in resets && !resets[resetHash].used && resets[resetHash].expiresAt >= now
    && resets[resetHash].user in users && MayReset(users[resets[resetHash].user])
  }

  function Blocked(users: map<string, User>, user: string): map<string, User> {
    if user in users && !users[user].status.BLOCKED?
    then users[user := users[user].(status := BLOCKED, active := false)] else users
  }

  function Unblocked(users: map<string, User>, user: string): map<string, User> {
    if user in users && users[user].status.BLOCKED?
    then users[user := users[user].(status := APPROVED, active := true)] else users
  }

  // ----- The service -----

  class AuthService {
    var users: map<string, User>
    var tokens: seq<Token>
    var resets: map<string, ResetToken>
    var lockout: Lockout

    constructor (users: map<string, User>)
      ensures this.users == users && tokens == [] && resets == map[] && lockout == map[]
    {
      this.users, tokens, resets, lockout := users, [], map[], map[];
    }

    method BuildTokens(user: string, hash: string, family: string, now: int)
      modifies this`tokens
      ensures Find(old(tokens), hash).None? ==> Holds(tokens, hash, user, family, now)
      ensures forall h | h != hash :: Find(tokens, h) == Find(old(tokens), h)
      ensures tokens == Issue(old(tokens), user, family, hash, now)
    {
      var issued := Token(hash, user, family, now, now + REFRESH_TOKEN_EXPIRY_MS, false);
      forall h
        ensures Find(tokens + [issued], h) ==
                if Find(tokens, h).Some? then Find(tokens, h) else if hash == h then Some(issued) else None
      {
        FindAppends(tokens, issued, h);
      }
      tokens := tokens + [issued];
    }

    /** `user` stands for the e-mail, `credentialsMatch` for the password comparison. */
    method Login(user: string, credentialsMatch: bool, hash: string, family: string, now: int)
      returns (session: Session)
      modifies this`tokens, this`lockout
      ensures session.Accepted? <==>
                !IsShut(old(lockout), user, now) && credentialsMatch && user in users && IsWelcome(users[user])
      ensures (lockout, session) == LoginOutcome(users, old(lockout), user, credentialsMatch, now)
      ensures tokens == if session.Accepted? then Issue(old(tokens), user, family, hash, now) else old(tokens)
    {
      if Locked(lockout, user, now) {
        return Refused;
      }
      if user !in users || !credentialsMatch {
        RecordFailedLogin(user, now);
        return Refused;
      }
      if users[user].isExternal || users[user].status.PENDING? || users[user].status.BLOCKED? {
        return Refused;
      }
      if !users[user].active || users[user].status.REJECTED? {
        return Refused;
      }
      lockout := lockout - {user};
      BuildTokens(user, hash, family, now);
      session := Accepted;
    }

    /** Increment, and set the expiry when the counter has just become one. */
    method RecordFailedLogin(user: string, now: int)
      modifies this`lockout
      ensures lockout == Failed(old(lockout), user, now)
    {
      var current := if Counting(lockout, user, now) then lockout[user].count + 1 else 1;
      var expiresAt := if Counting(lockout, user, now) then lockout[user].expiresAt else now + LOCKOUT_TTL_MS;
      lockout := lockout[user := Attempts(current, expiresAt)];
    }

    method Refresh(hash: string, newHash: string, now: int) returns (session: Session)
      modifies this`tokens
      ensures (tokens, session) == RefreshOutcome(users, old(tokens), hash, newHash, now)
    {
      var found := Find(tokens, hash);
      if found.None? {
        return Refused;
      }
      var stored := found.value;
      if stored.revoked {
        var recovered := RecoverRecentDuplicateRefresh(stored, newHash, now);
        if recovered.Some? {
          return recovered.value;
        }
        tokens := Revoke(tokens, OfFamily(stored.family));
        return Refused;
      }
      if stored.expiresAt < now {
        tokens := Revoke(tokens, WithHash(hash));
        return Refused;
      }
      if stored.user !in users || !InGoodStanding(users[stored.user]) {
        tokens := Revoke(tokens, OfUser(stored.user));
        return Refused;
      }
      tokens := Revoke(tokens, WithHash(hash));
      tokens := Issue(tokens, stored.user, stored.family, newHash, now);
      session := Accepted;
    }

    /** `None` leaves the decision to the caller; `Some(Refused)` is the thrown refusal. */
    method RecoverRecentDuplicateRefresh(stored: Token, newHash: string, now: int) returns (r: Option<Session>)
      modifies this`tokens
      ensures r.None? <==> !HasLiveSuccessor(old(tokens), stored, now)
      ensures r.None? ==> tokens == old(tokens)
      ensures r.Some? ==>
                var standing := stored.user in users && InGoodStanding(users[stored.user]);
                && r.value == (if standing then Accepted else Refused)
                && tokens == if standing
                             then Issue(Revoke(old(tokens), OfFamily(stored.family)), stored.user, stored.family,
                                        newHash, now)
                             else Revoke(old(tokens), OfUser(stored.user))
    {
      if !HasLiveSuccessor(tokens, stored, now) {
        return None;
      }
      if stored.user !in users || !InGoodStanding(users[stored.user]) {
        tokens := Revoke(tokens, OfUser(stored.user));
        return Some(Refused);
      }
      tokens := Revoke(tokens, OfFamily(stored.family));
      tokens := Issue(tokens, stored.user, stored.family, newHash, now);
      r := Some(Accepted);
    }

    method Logout(hash: string)
      modifies this`tokens
      ensures tokens == LogoutOutcome(old(tokens), hash)
    {
      var stored := Find(tokens, hash);
      if stored.Some? {
        tokens := Revoke(tokens, OfFamily(stored.value.family));
      }
    }

    /** Its own comment says that a block calls it; nothing in the program does. */
    method RevokeAllUserTokens(user: string)
      modifies this`tokens
      ensures OnlyUserRevoked(old(tokens), tokens, user)
    {
      tokens := Revoke(tokens, OfUser(user));
    }

    /** An administrator sets the password of a user: the sessions end, and so does a lock. */
    method AdminSetPassword(user: string)
      modifies this`tokens, this`lockout
      ensures user !in users ==> tokens == old(tokens) && lockout == old(lockout)
      ensures user in users ==> OnlyUserRevoked(old(tokens), tokens, user) && lockout == old(lockout) - {user}
    {
      if user !in users {
        return;
      }
      tokens := Revoke(tokens, OfUser(user));
      lockout := lockout - {user};
    }

    /** A block writes the status only: the tokens stay as they are. */
    method BlockUser(user: string)
      modifies this`users
      ensures users.Keys == old(users).Keys
      ensures user in users ==>
          users[user].status == BLOCKED && (old(users)[user].status != BLOCKED ==> !users[user].active)
      ensures forall u | u in users && u != user :: users[u] == old(users)[u]
      ensures users == Blocked(old(users), user)
    {
      if user in users && !users[user].status.BLOCKED? {
        users := users[user := users[user].(status := BLOCKED, active := false)];
      }
    }

    method UnblockUser(user: string)
      modifies this`users
      ensures users.Keys == old(users).Keys
      ensures user in users && old(users)[user].status == BLOCKED ==>
          users[user].status == APPROVED && users[user].active
      ensures user in users && old(users)[user].status != BLOCKED ==> users[user] == old(users)[user]
      ensures forall u | u in users && u != user :: users[u] == old(users)[u]
      ensures users == Unblocked(old(users), user)
    {
      if user in users && users[user].status.BLOCKED? {
        users := users[user := users[user].(status := APPROVED, active := true)];
      }
    }

    method ForgotPassword(user: string, resetHash: string, now: int)
      modifies this`resets
      ensures resets == if user in users && IsResettable(users[user])
                        then old(resets)[resetHash := ResetToken(user, now + 1_800_000, false)]
                        else old(resets)
    {
      if user !in users || !MayReset(users[user]) {
        return;
      }
      resets := resets[resetHash := ResetToken(user, now + PASSWORD_RESET_TTL_MS, false)];
    }

    method ResetPassword(resetHash: string, now: int) returns (ok: bool)
      modifies this`tokens, this`resets, this`lockout
      ensures ok <==> ResetWorks(users, old(resets), resetHash, now)
      ensures ok ==> tokens == Revoke(old(tokens), OfUser(old(resets)[resetHash].user))
                     && resets == old(resets)[resetHash := old(resets)[resetHash].(used := true)]
                     && lockout == old(lockout) - {old(resets)[resetHash].user}
      ensures !ok ==> tokens == old(tokens) && resets == old(resets) && lockout == old(lockout)
    {
      if resetHash !in resets || resets[resetHash].used || resets[resetHash].expiresAt < now {
        return false;
      }
      var user := resets[resetHash].user;
      if user !in users || !MayReset(users[user]) {
        return false;
      }
      resets := resets[resetHash := resets[resetHash].(used := true)];
      tokens := Revoke(tokens, OfUser(user));
      lockout := lockout - {user};
      ok := true;
    }
  }

  // ----- Runs -----

  datatype State = State(now: int, users: map<string, User>, tokens: seq<Token>, resets: map<string, ResetToken>,
                         lockout: Lockout)

  datatype Event =
    | Elapse(ms: nat)
    | ChangeUser(user: string, to: User)
    | DoRegister(user: string, as_: User, hash: string, family: string)
    | DoLogin(user: string, credentialsMatch: bool, hash: string, family: string)
    | DoRefresh(hash: string, newHash: string)
    | DoLogout(hash: string)
    | DoForgot(user: string, resetHash: string)
    | DoReset(resetHash: string)
    | DoSetPassword(user: string)
    | DoBlock(user: string)
    | DoUnblock(user: string)

  predicate FreshHash(s: State, hash: string) {
    forall i | 0 <= i < |s.tokens| :: s.tokens[i].hash != hash
  }

  predicate FreshFamily(s: State, family: string) {
    forall i | 0 <= i < |s.tokens| :: s.tokens[i].family != family
  }

  /** Random tokens and families do not repeat, and registration adds a new user. */
  predicate Allowed(s: State, e: Event) {
    match e
    case DoRegister(user, _, hash, family) => user !in s.users && FreshHash(s, hash) && FreshFamily(s, family)
    case DoLogin(_, _, hash, family) => FreshHash(s, hash) && FreshFamily(s, family)
    case DoRefresh(_, newHash) => FreshHash(s, newHash)
    case DoForgot(_, resetHash) => resetHash !in s.resets
    case _ => true
  }

  function Next(s: State, e: Event): State {
    match e
    case Elapse(ms) => s.(now := s.now + ms)
    case ChangeUser(user, to) => s.(users := s.users[user := to])
    case DoRegister(user, as_, hash, family) =>
      s.(users := s.users[user := as_], tokens := Issue(s.tokens, user, family, hash, s.now))
    case DoLogin(user, credentialsMatch, hash, family) =>
      var (lockout, session) := LoginOutcome(s.users, s.lockout, user, credentialsMatch, s.now);
      s.(lockout := lockout, tokens := if session.Accepted?
          then Issue(s.tokens, user, family, hash, s.now) else s.tokens)
    case DoRefresh(hash, newHash) => s.(tokens := RefreshOutcome(s.users, s.tokens, hash, newHash, s.now).0)
    case DoLogout(hash) => s.(tokens := LogoutOutcome(s.tokens, hash))
    case DoForgot(user, resetHash) =>
      if user in s.users && MayReset(s.users[user])
      then s.(resets := s.resets[resetHash := ResetToken(user, s.now + PASSWORD_RESET_TTL_MS, false)]) else s
    case DoReset(resetHash) =>
      if ResetWorks(s.users, s.resets, resetHash, s.now)
      then s.(resets := s.resets[resetHash := s.resets[resetHash].(used := true)],
              tokens := Revoke(s.tokens, OfUser(s.resets[resetHash].user)),
                  lockout := s.lockout - {s.resets[resetHash].user})
      else s
    case DoSetPassword(user) =>
      if user in s.users then s.(tokens := Revoke(s.tokens, OfUser(user)), lockout := s.lockout - {user}) else s
    case DoBlock(user) => s.(users := Blocked(s.users, user))
    case DoUnblock(user) => s.(users := Unblocked(s.users, user))
  }

  function Run(s: State, es: seq<Event>): State
    decreases |es|
  {
    if es == [] then s else Run(Next(s, es[0]), es[1..])
  }

  predicate IsRun(s: State, es: seq<Event>)
    decreases |es|
  {
    es == [] || (Allowed(s, es[0]) && IsRun(Next(s, es[0]), es[1..]))
  }

  // ----- The families -----

  /**
   Before the last token of a family everything is revoked, a family has one user, hashes tell rows apart, rows are in
   order of age.
   */
  ghost predicate Orderly(tokens: seq<Token>, now: int) {
    && (forall i, j | 0 <= i < j < |tokens| && tokens[i].family == tokens[j].family ::
        tokens[i].revoked && tokens[i].user == tokens[j].user)
    && (forall i, j | 0 <= i < j < |tokens| ::
        tokens[i].hash != tokens[j].hash && tokens[i].createdAt <= tokens[j].createdAt)
    && (forall i | 0 <= i < |tokens| :: tokens[i].createdAt <= now)
  }

  predicate Dead(tokens: seq<Token>, family: string) {
    forall i | 0 <= i < |tokens| && tokens[i].family == family :: tokens[i].revoked
  }

  predicate Known(tokens: seq<Token>, family: string) {
    exists i | 0 <= i < |tokens| :: tokens[i].family == family
  }

  lemma {:induction false} FindMeans(tokens: seq<Token>, hash: string)
    ensures Find(tokens, hash).None? ==> forall i | 0 <= i < |tokens| :: tokens[i].hash != hash
    ensures Find(tokens, hash).Some? ==> exists i | 0 <= i < |tokens| ::
        tokens[i] == Find(tokens, hash).value && tokens[i].hash == hash
  {
    if tokens != [] && tokens[0].hash != hash {
      FindMeans(tokens[1..], hash);
      if Find(tokens, hash).Some? {
        var i :| 0 <= i < |tokens[1..]| && tokens[1..][i] == Find(tokens, hash).value && tokens[1..][i].hash == hash;
        assert tokens[i + 1] == Find(tokens, hash).value;
      }
    }
  }

  lemma RevokeKeepsOrder(tokens: seq<Token>, where: Where, now: int)
    requires Orderly(tokens, now)
    ensures Orderly(Revoke(tokens, where), now)
  {
  }

  /** A new token fits once its family, if it has one, is dead and belongs to the same user. */
  lemma IssueKeepsOrder(tokens: seq<Token>, user: string, family: string, hash: string, now: int)
    requires Orderly(tokens, now) && Dead(tokens, family)
    requires forall i | 0 <= i < |tokens| ::
        tokens[i].hash != hash && (tokens[i].family == family ==> tokens[i].user == user)
    ensures Orderly(Issue(tokens, user, family, hash, now), now)
  {
  }

  /** Revoking the live token of a family leaves it dead. */
  lemma RevokeOneKills(tokens: seq<Token>, i: nat, now: int)
    requires Orderly(tokens, now) && i < |tokens| && !tokens[i].revoked
    ensures Dead(Revoke(tokens, WithHash(tokens[i].hash)), tokens[i].family)
  {
    forall j | 0 <= j < |tokens| && tokens[j].family == tokens[i].family
      ensures Revoke(tokens, WithHash(tokens[i].hash))[j].revoked
    {
      if j != i {
        assert j < i || i < j;
      }
    }
  }

  lemma RefreshKeepsOrder(users: map<string, User>, tokens: seq<Token>, hash: string, newHash: string, now: int)
    requires Orderly(tokens, now) && forall i | 0 <= i < |tokens| :: tokens[i].hash != newHash
    ensures Orderly(RefreshOutcome(users, tokens, hash, newHash, now).0, now)
  {
    FindMeans(tokens, hash);
    if Find(tokens, hash).Some? {
      var stored := Find(tokens, hash).value;
      var i :| 0 <= i < |tokens| && tokens[i] == stored;
      var where := if stored.revoked then OfFamily(stored.family) else WithHash(hash);
      RevokeKeepsOrder(tokens, OfUser(stored.user), now);
      RevokeKeepsOrder(tokens, where, now);
      if !stored.revoked {
        RevokeOneKills(tokens, i, now);
      }
      OneUserPerFamily(tokens, i, now);
      IssueKeepsOrder(Revoke(tokens, where), stored.user, stored.family, newHash, now);
    }
  }

  lemma OneUserPerFamily(tokens: seq<Token>, i: nat, now: int)
    requires Orderly(tokens, now) && i < |tokens|
    ensures forall j | 0 <= j < |tokens| && tokens[j].family == tokens[i].family :: tokens[j].user == tokens[i].user
  {
    forall j | 0 <= j < |tokens| && tokens[j].family == tokens[i].family
      ensures tokens[j].user == tokens[i].user
    {
      if j != i {
        assert j < i || i < j;
      }
    }
  }

  lemma StepKeepsOrder(s: State, e: Event)
    requires Orderly(s.tokens, s.now) && Allowed(s, e)
    ensures Orderly(Next(s, e).tokens, Next(s, e).now)
  {
    match e
    case DoRegister(user, _, hash, family) => IssueKeepsOrder(s.tokens, user, family, hash, s.now);
    case DoLogin(user, _, hash, family) => IssueKeepsOrder(s.tokens, user, family, hash, s.now);
    case DoRefresh(hash, newHash) => RefreshKeepsOrder(s.users, s.tokens, hash, newHash, s.now);
    case DoLogout(hash) =>
      if Find(s.tokens, hash).Some? {
        RevokeKeepsOrder(s.tokens, OfFamily(Find(s.tokens, hash).value.family), s.now);
      }
    case DoReset(resetHash) =>
      if resetHash in s.resets {
        RevokeKeepsOrder(s.tokens, OfUser(s.resets[resetHash].user), s.now);
      }
    case DoSetPassword(user) => RevokeKeepsOrder(s.tokens, OfUser(user), s.now);
    case _ =>
  }

  /** At most one token of a family is live, and it is the newest, in every reachable state. */
  lemma {:induction false} AtMostOneLiveToken(s: State, es: seq<Event>)
    requires Orderly(s.tokens, s.now) && IsRun(s, es)
    ensures Orderly(Run(s, es).tokens, Run(s, es).now)
    decreases |es|
  {
    if es != [] {
      StepKeepsOrder(s, es[0]);
      AtMostOneLiveToken(Next(s, es[0]), es[1..]);
    }
  }

  // ----- Dead families -----

  /** A dead family stays dead, and no token is added to it. */
  ghost predicate StaysDead(before: seq<Token>, after: seq<Token>, family: string) {
    && |before| <= |after| && Dead(after, family) && Known(after, family)
    && (forall i | 0 <= i < |before| :: after[i].family == before[i].family)
    && forall i | |before| <= i < |after| :: after[i].family != family
  }

  lemma KnownStays(before: seq<Token>, after: seq<Token>, family: string)
    requires Known(before, family) && |before| <= |after| && forall i | 0 <= i < |before| ::
        after[i].family == before[i].family
    ensures Known(after, family)
  {
    var i :| 0 <= i < |before| && before[i].family == family;
    assert after[i].family == family;
  }

  lemma DeadAfterRefresh(s: State, hash: string, newHash: string, family: string)
    requires Dead(s.tokens, family) && Known(s.tokens, family)
    ensures StaysDead(s.tokens, RefreshOutcome(s.users, s.tokens, hash, newHash, s.now).0, family)
  {
    var after := RefreshOutcome(s.users, s.tokens, hash, newHash, s.now).0;
    KnownStays(s.tokens, after, family);
    FindMeans(s.tokens, hash);
    if Find(s.tokens, hash).Some? && Find(s.tokens, hash).value.family == family {
      assert Find(s.tokens, hash).value.revoked;
      assert !HasLiveSuccessor(s.tokens, Find(s.tokens, hash).value, s.now);
    }
  }

  lemma StepStaysDead(s: State, e: Event, family: string)
    requires Allowed(s, e) && Dead(s.tokens, family) && Known(s.tokens, family)
    ensures StaysDead(s.tokens, Next(s, e).tokens, family)
  {
    KnownStays(s.tokens, Next(s, e).tokens, family);
    match e
    case DoRefresh(hash, newHash) => DeadAfterRefresh(s, hash, newHash, family);
    case _ =>
  }

  lemma {:induction false} DeadFamilyStaysDead(s: State, es: seq<Event>, family: string)
    requires IsRun(s, es) && Dead(s.tokens, family) && Known(s.tokens, family)
    ensures StaysDead(s.tokens, Run(s, es).tokens, family)
    decreases |es|
  {
    if es != [] {
      StepStaysDead(s, es[0], family);
      DeadFamilyStaysDead(Next(s, es[0]), es[1..], family);
    }
  }

  // ----- Which tokens are accepted -----

  predicate Accepts(s: State, hash: string) {
    RefreshOutcome(s.users, s.tokens, hash, "", s.now).1.Accepted?
  }

  /** The position of the newest token of a family. */
  function Newest(tokens: seq<Token>, family: string): Option<nat> {
    if tokens == [] then None
    else if tokens[|tokens| - 1].family == family then Some(|tokens| - 1)
    else Newest(tokens[..|tokens| - 1], family)
  }

  lemma {:induction false} NewestMeans(tokens: seq<Token>, family: string)
    ensures var n := Newest(tokens, family);
            && (n.Some? ==> n.value < |tokens| && tokens[n.value].family == family
                            && forall i | n.value < i < |tokens| :: tokens[i].family != family)
            && (n.None? ==> forall i | 0 <= i < |tokens| :: tokens[i].family != family)
  {
    if tokens != [] && tokens[|tokens| - 1].family != family {
      NewestMeans(tokens[..|tokens| - 1], family);
    }
  }

  /** The only token that can be a live successor is the newest of the family. */
  lemma SuccessorIsNewest(tokens: seq<Token>, i: nat, now: int)
    requires Orderly(tokens, now) && i < |tokens|
    ensures var n := Newest(tokens, tokens[i].family);
            n.Some? && n.value < |tokens|
                && (HasLiveSuccessor(tokens, tokens[i], now) <==> IsLiveSuccessor(tokens[n.value], tokens[i], now))
  {
    NewestMeans(tokens, tokens[i].family);
    var n := Newest(tokens, tokens[i].family).value;
    if HasLiveSuccessor(tokens, tokens[i], now) {
      var j :| 0 <= j < |tokens| && IsLiveSuccessor(tokens[j], tokens[i], now);
      assert j == n || j < n;
    }
  }

  lemma {:induction false} FindAt(tokens: seq<Token>, i: nat, now: int)
    requires Orderly(tokens, now) && i < |tokens|
    ensures Find(tokens, tokens[i].hash) == Some(tokens[i])
  {
    if i > 0 {
      assert tokens[0].hash != tokens[i].hash;
      assert Orderly(tokens[1..], now);
      FindAt(tokens[1..], i - 1, now);
    }
  }

  /**
   A live token is accepted until it expires; a revoked one only while the newest token of its family is
   live, unexpired, strictly younger and at most 15 seconds old.  In both cases the user must be in good standing.
   */
  lemma AcceptedExactlyWhen(s: State, i: nat)
    requires Orderly(s.tokens, s.now) && i < |s.tokens|
    ensures var t := s.tokens[i];
            var n := Newest(s.tokens, t.family);
            n.Some? && n.value < |s.tokens| &&
            var newest := s.tokens[n.value];
            Accepts(s, t.hash) <==>
            && t.user in s.users && IsUsable(s.users[t.user])
            && (if t.revoked
                then !newest.revoked && newest.expiresAt > s.now && newest.createdAt > t.createdAt
                     && s.now - newest.createdAt <= 15_000
                else t.expiresAt >= s.now)
  {
    FindAt(s.tokens, i, s.now);
    SuccessorIsNewest(s.tokens, i, s.now);
    NewestMeans(s.tokens, s.tokens[i].family);
  }

  /** Acceptance leaves the new token as the family's only live one. */
  lemma AcceptedLeavesOneLive(s: State, i: nat, newHash: string)
    requires Orderly(s.tokens, s.now) && i < |s.tokens| && Accepts(s, s.tokens[i].hash) && FreshHash(s, newHash)
    ensures var t := s.tokens[i];
            var after := Next(s, DoRefresh(t.hash, newHash)).tokens;
            && |after| == |s.tokens| + 1
            && after[|s.tokens|] == Token(newHash, t.user, t.family, s.now, s.now + REFRESH_TOKEN_EXPIRY_MS, false)
            && (forall j | 0 <= j < |s.tokens| ::
                after[j] == s.tokens[j].(revoked := s.tokens[j].revoked || s.tokens[j].family == t.family))
  {
    FindAt(s.tokens, i, s.now);
    if !s.tokens[i].revoked {
      RevokeOneKills(s.tokens, i, s.now);
      forall j | 0 <= j < |s.tokens|
        ensures s.tokens[j].hash == s.tokens[i].hash <==> j == i
      {
        if j != i {
          assert j < i || i < j;
        }
      }
    }
  }

  lemma RefusalKills(s: State, i: nat, newHash: string)
    requires Orderly(s.tokens, s.now) && i < |s.tokens| && !Accepts(s, s.tokens[i].hash)
    ensures var after := Next(s, DoRefresh(s.tokens[i].hash, newHash)).tokens;
            Dead(after, s.tokens[i].family) && |after| == |s.tokens| && forall j | 0 <= j < |after| ::
                after[j].family == s.tokens[j].family
  {
    FindAt(s.tokens, i, s.now);
    OneUserPerFamily(s.tokens, i, s.now);
    if !s.tokens[i].revoked {
      RevokeOneKills(s.tokens, i, s.now);
    }
  }

  /**
   A refused token takes its whole family down, for good: a replay ends every session that grew from the same login.
   */
  lemma RefusalKillsForGood(s: State, i: nat, newHash: string, es: seq<Event>)
    requires Orderly(s.tokens, s.now) && i < |s.tokens| && !Accepts(s, s.tokens[i].hash)
    requires IsRun(s, [DoRefresh(s.tokens[i].hash, newHash)] + es)
    ensures StaysDead(s.tokens, Run(s, [DoRefresh(s.tokens[i].hash, newHash)] + es).tokens, s.tokens[i].family)
  {
    var e := DoRefresh(s.tokens[i].hash, newHash);
    RefusalKills(s, i, newHash);
    assert Known(Next(s, e).tokens, s.tokens[i].family);
    assert ([e] + es)[1..] == es;
    DeadFamilyStaysDead(Next(s, e), es, s.tokens[i].family);
  }

  /** Logging out, too, ends the family for good, whichever of its tokens is shown. */
  lemma LogoutKillsForGood(s: State, i: nat, es: seq<Event>)
    requires Orderly(s.tokens, s.now) && i < |s.tokens|
    requires IsRun(s, [DoLogout(s.tokens[i].hash)] + es)
    ensures StaysDead(s.tokens, Run(s, [DoLogout(s.tokens[i].hash)] + es).tokens, s.tokens[i].family)
  {
    var t, e := s.tokens[i], DoLogout(s.tokens[i].hash);
    FindAt(s.tokens, i, s.now);
    var s' := Next(s, e);
    assert s'.tokens[i].family == t.family;
    assert Dead(s'.tokens, t.family) && Known(s'.tokens, t.family);
    assert ([e] + es)[1..] == es;
    DeadFamilyStaysDead(s', es, t.family);
  }

  predicate EndsSessionsOf(s: State, e: Event, user: string) {
    (e == DoSetPassword(user) && user in s.users)
    || (e.DoReset? && ResetWorks(s.users, s.resets, e.resetHash, s.now) && s.resets[e.resetHash].user == user)
  }

  /** A reset, or an administrator's change of the password, ends every family the user had, for good. */
  lemma UserSessionsEndForGood(s: State, e: Event, es: seq<Event>, user: string, i: nat)
    requires EndsSessionsOf(s, e, user) && IsRun(s, [e] + es)
    requires Orderly(s.tokens, s.now) && i < |s.tokens| && s.tokens[i].user == user
    ensures StaysDead(s.tokens, Run(s, [e] + es).tokens, s.tokens[i].family)
  {
    OneUserPerFamily(s.tokens, i, s.now);
    var s' := Next(s, e);
    assert s'.tokens[i].family == s.tokens[i].family;
    assert Dead(s'.tokens, s.tokens[i].family) && Known(s'.tokens, s.tokens[i].family);
    assert ([e] + es)[1..] == es;
    DeadFamilyStaysDead(s', es, s.tokens[i].family);
  }

  /** A reset token works once. */
  lemma {:induction false} ResetWorksOnce(s: State, es: seq<Event>, resetHash: string)
    requires IsRun(s, es) && resetHash in s.resets && s.resets[resetHash].used
    ensures var s' := Run(s, es); resetHash in s'.resets && !ResetWorks(s'.users, s'.resets, resetHash, s'.now)
    decreases |es|
  {
    if es != [] {
      ResetWorksOnce(Next(s, es[0]), es[1..], resetHash);
    }
  }

  // ----- How many passwords can be tried -----

  /** A wrong password for the user is compared. */
  function Guess(s: State, e: Event, user: string): nat {
    if e.DoLogin? && e.user == user && !Locked(s.lockout, user, s.now) && (user !in s.users || !e.credentialsMatch)
    then 1 else 0
  }

  function Guesses(s: State, es: seq<Event>, user: string): nat
    decreases |es|
  {
    if es == [] then 0 else Guess(s, es[0], user) + Guesses(Next(s, es[0]), es[1..], user)
  }

  /** Neither a login of the user nor a reset or change of their password clears the counter. */
  predicate NeverCleared(s: State, es: seq<Event>, user: string)
    decreases |es|
  {
    es == [] || (
      && !(es[0].DoLogin? && es[0].user == user
           && LoginOutcome(s.users, s.lockout, user, es[0].credentialsMatch, s.now).1.Accepted?)
      && !(es[0].DoReset? && ResetWorks(s.users, s.resets, es[0].resetHash, s.now)
           && s.resets[es[0].resetHash].user == user)
      && !(es[0].DoSetPassword? && es[0].user == user)
      && NeverCleared(Next(s, es[0]), es[1..], user))
  }

  /** The counting periods that can begin in a span of time, its ends included. */
  function Periods(span: int): nat {
    if span < 0 then 0 else span / LOCKOUT_TTL_MS + 1
  }

  /** The guesses left in the current period and in those that can begin after it until `end`. */
  function Allowance(lockout: Lockout, user: string, now: int, end: int): nat {
    if Counting(lockout, user, now) then
      (if lockout[user].count < LOCKOUT_MAX_ATTEMPTS then LOCKOUT_MAX_ATTEMPTS - lockout[user].count else 0)
      + Periods(end - lockout[user].expiresAt) * LOCKOUT_MAX_ATTEMPTS
    else Periods(end - now) * LOCKOUT_MAX_ATTEMPTS
  }

  lemma PeriodsGrow(a: int, b: int)
    requires a <= b
    ensures Periods(a) <= Periods(b)
    ensures b >= 0 ==> Periods(b) == 1 + Periods(b - LOCKOUT_TTL_MS)
  {
  }

  lemma {:induction false} TimeGoesOn(s: State, es: seq<Event>)
    ensures s.now <= Run(s, es).now
    decreases |es|
  {
    if es != [] {
      TimeGoesOn(Next(s, es[0]), es[1..]);
    }
  }

  lemma StepUsesAllowance(s: State, e: Event, user: string, end: int)
    requires NeverCleared(s, [e], user) && Next(s, e).now <= end
    ensures Guess(s, e, user)
        + Allowance(Next(s, e).lockout, user, Next(s, e).now, end) <= Allowance(s.lockout, user, s.now, end)
  {
    match e
    case Elapse(ms) =>
      PeriodsGrow(end - s.now - ms, end - s.now);
      if Counting(s.lockout, user, s.now) && !Counting(s.lockout, user, s.now + ms) {
        PeriodsGrow(end - s.now - ms, end - s.lockout[user].expiresAt);
      }
    case DoLogin(u, _, _, _) =>
      if u == user && !Counting(s.lockout, user, s.now) {
        PeriodsGrow(end - s.now, end - s.now);
      }
    case _ =>
  }

  lemma {:induction false} GuessesAreLimited(s: State, es: seq<Event>, user: string)
    requires NeverCleared(s, es, user)
    ensures Guesses(s, es, user) <= Allowance(s.lockout, user, s.now, Run(s, es).now)
    decreases |es|
  {
    if es != [] {
      TimeGoesOn(Next(s, es[0]), es[1..]);
      StepUsesAllowance(s, es[0], user, Run(s, es).now);
      GuessesAreLimited(Next(s, es[0]), es[1..], user);
    }
  }

  /** Until the counter is cleared, at most five wrong passwords are compared per quarter of an hour begun. */
  lemma FiveGuessesPerPeriod(s: State, es: seq<Event>, user: string)
    requires NeverCleared(s, es, user) && !Counting(s.lockout, user, s.now)
    ensures Guesses(s, es, user) <= ((Run(s, es).now - s.now) / 900_000 + 1) * 5
  {
    TimeGoesOn(s, es);
    GuessesAreLimited(s, es, user);
  }

  /** Another user's events and refused logins do not touch a lock; it ends at its expiry. */
  lemma {:induction false} LockLasts(s: State, es: seq<Event>, user: string)
    requires Locked(s.lockout, user, s.now) && NeverCleared(s, es, user) && Run(s, es).now < s.lockout[user].expiresAt
    ensures Locked(Run(s, es).lockout, user, Run(s, es).now) && Run(s, es).lockout[user] == s.lockout[user]
    decreases |es|
  {
    if es != [] {
      TimeGoesOn(Next(s, es[0]), es[1..]);
      LockLasts(Next(s, es[0]), es[1..], user);
    }
  }
}
