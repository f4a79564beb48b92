/**
 Logins that overlap.  The lockout counter is read before the password is compared and written after it, so several
 calls can pass the check before any of them counts its failure.
 */
module LoginRaces {
  import opened Basics
  import opened RefreshTokens

  /** `comparing` are the calls between check and count, with the account each of them tries. */
  datatype Login = Login(now: int, lockout: Lockout, comparing: map<nat, string>)

  datatype Move =
    | Wait(ms: nat)
    | Check(c: nat, user: string)
    | Wrong(c: nat)
    | Right(c: nat)
    | Leave(c: nat)
    | Clear(user: string)

  /** `Leave` is a right password of an account that may not log in; `Clear` a reset or change of the password. */
  predicate CanMove(s: Login, m: Move) {
    match m
    case Check(c, _) => c !in s.comparing
    case Wrong(c) => c in s.comparing
    case Right(c) => c in s.comparing
    case Leave(c) => c in s.comparing
    case _ => true
  }

  function After(s: Login, m: Move): Login
    requires CanMove(s, m)
  {
    match m
    case Wait(ms) => s.(now := s.now + ms)
    case Check(c, user) => if Locked(s.lockout, user, s.now) then s else s.(comparing := s.comparing[c := user])
    case Wrong(c) => s.(lockout := Failed(s.lockout, s.comparing[c], s.now), comparing := s.comparing - {c})
    case Right(c) => s.(lockout := s.lockout - {s.comparing[c]}, comparing := s.comparing - {c})
    case Leave(c) => s.(comparing := s.comparing - {c})
    case Clear(user) => s.(lockout := s.lockout - {user})
  }

  function InFlight(s: Login, user: string): set<nat> {
    set c | c in s.comparing && s.comparing[c] == user
  }

  predicate Clears(s: Login, m: Move, user: string)
    requires CanMove(s, m)
  {
    (m.Right? && s.comparing[m.c] == user) || (m.Clear? && m.user == user)
  }

  /**
   A run in which the counter of the user is never cleared and at most `k` calls for the user are under way at a time.
   */
  predicate Tries(s: Login, ms: seq<Move>, user: string, k: nat)
    decreases |ms|
  {
    |InFlight(s, user)| <= k &&
    (ms == [] || (CanMove(s, ms[0]) && !Clears(s, ms[0], user) && Tries(After(s, ms[0]), ms[1..], user, k)))
  }

  function EndOf(s: Login, ms: seq<Move>, user: string, k: nat): Login
    requires Tries(s, ms, user, k)
    decreases |ms|
  {
    if ms == [] then s else EndOf(After(s, ms[0]), ms[1..], user, k)
  }

  /** The wrong passwords that were compared for the user. */
  function WrongOnes(s: Login, ms: seq<Move>, user: string, k: nat): nat
    requires Tries(s, ms, user, k)
    decreases |ms|
  {
    if ms == [] then 0
    else (if ms[0].Wrong? && s.comparing[ms[0].c] == user then 1 else 0) + WrongOnes(After(s, ms[0]), ms[1..], user, k)
  }

  /** The failures one counting period can reach: four, and the calls that passed the check before the fifth. */
  function Limit(k: nat): nat {
    LOCKOUT_MAX_ATTEMPTS - 1 + k
  }

  /** The failures of all periods that can begin in a span of time. */
  function Share(span: int, k: nat): nat {
    Periods(span) * Limit(k)
  }

  lemma ShareGrows(a: int, b: int, k: nat)
    requires a <= b
    ensures Share(a, k) <= Share(b, k)
    ensures b >= 0 ==> Share(b, k) == Limit(k) + Share(b - LOCKOUT_TTL_MS, k)
  {
    PeriodsGrow(a, b);
    TimesLimit(Periods(a), Periods(b), k);
    if b >= 0 {
      assert Periods(b) * Limit(k) == (1 + Periods(b - LOCKOUT_TTL_MS)) * Limit(k);
    }
  }

  lemma TimesLimit(m: nat, n: nat, k: nat)
    requires m <= n
    ensures m * Limit(k) <= n * Limit(k)
  {
    assert (n - m) * Limit(k) >= 0;
  }

  /** What is left of the period under way and of those that can begin by `end`. */
  function LeftOver(s: Login, user: string, k: nat, end: int): int {
    if Counting(s.lockout, user, s.now)
    then Limit(k) - s.lockout[user].count + Share(end - s.lockout[user].expiresAt, k)
    else Share(end - s.now, k)
  }

  /** Once five failures are counted, the calls still under way are all that can follow. */
  predicate Bounded(s: Login, user: string, k: nat) {
    Counting(s.lockout, user, s.now) && s.lockout[user].count >= LOCKOUT_MAX_ATTEMPTS ==>
      s.lockout[user].count + |InFlight(s, user)| <= Limit(k)
  }

  lemma OneMore(s: Login, c: nat, user: string)
    requires c !in s.comparing
    ensures |InFlight(s.(comparing := s.comparing[c := user]), user)| == |InFlight(s, user)| + 1
  {
    assert InFlight(s.(comparing := s.comparing[c := user]), user) == InFlight(s, user) + {c};
  }

  lemma OneLess(s: Login, c: nat)
    requires c in s.comparing
    ensures |InFlight(s.(comparing := s.comparing - {c}), s.comparing[c])| == |InFlight(s, s.comparing[c])| - 1
  {
    assert InFlight(s.(comparing := s.comparing - {c}), s.comparing[c]) == InFlight(s, s.comparing[c]) - {c};
  }

  lemma OthersStay(s: Login, t: Login, user: string)
    requires forall c :: (c in s.comparing && s.comparing[c] == user) <==> (c in t.comparing && t.comparing[c] == user)
    ensures InFlight(t, user) == InFlight(s, user)
  {
  }

  lemma WrongKeepsBounded(s: Login, c: nat, user: string, k: nat)
    requires c in s.comparing && s.comparing[c] == user && Bounded(s, user, k) && |InFlight(s, user)| <= k
    ensures Bounded(After(s, Wrong(c)), user, k)
  {
    var after := After(s, Wrong(c));
    OneLess(s, c);
    OthersStay(s.(comparing := s.comparing - {c}), after, user);
  }

  lemma MoveKeepsBounded(s: Login, m: Move, user: string, k: nat)
    requires CanMove(s, m) && !Clears(s, m, user) && Bounded(s, user, k) && |InFlight(s, user)| <= k
    ensures Bounded(After(s, m), user, k)
  {
    match m
    case Check(c, u) =>
      if u != user {
        OthersStay(s, After(s, m), user);
      }
    case Wrong(c) =>
      if s.comparing[c] == user {
        WrongKeepsBounded(s, c, user, k);
      } else {
        OthersStay(s, After(s, m), user);
      }
    case Leave(c) =>
      if s.comparing[c] == user {
        OneLess(s, c);
      } else {
        OthersStay(s, After(s, m), user);
      }
    case _ => OthersStay(s, After(s, m), user);
  }

  lemma WaitUsesLimit(s: Login, ms: nat, user: string, k: nat, end: int)
    requires Bounded(s, user, k) && 1 <= k && s.now + ms <= end
    ensures LeftOver(After(s, Wait(ms)), user, k, end) <= LeftOver(s, user, k, end)
  {
    ShareGrows(end - s.now - ms, end - s.now, k);
    if Counting(s.lockout, user, s.now) && !Counting(s.lockout, user, s.now + ms) {
      ShareGrows(end - s.now - ms, end - s.lockout[user].expiresAt, k);
      assert s.lockout[user].count <= Limit(k);
    }
  }

  lemma WrongUsesLimit(s: Login, c: nat, k: nat, end: int)
    requires c in s.comparing && Bounded(s, s.comparing[c], k) && 1 <= k && s.now <= end
    ensures 1 + LeftOver(After(s, Wrong(c)), s.comparing[c], k, end) <= LeftOver(s, s.comparing[c], k, end)
  {
    ShareGrows(end - s.now, end - s.now, k);
  }

  lemma MoveUsesLimit(s: Login, m: Move, user: string, k: nat, end: int)
    requires CanMove(s, m) && !Clears(s, m, user) && Bounded(s, user, k) && 1 <= k && After(s, m).now <= end
    ensures (if m.Wrong? && s.comparing[m.c] == user then 1 else 0)
        + LeftOver(After(s, m), user, k, end) <= LeftOver(s, user, k, end)
  {
    if m.Wait? {
      WaitUsesLimit(s, m.ms, user, k, end);
    } else if m.Wrong? && s.comparing[m.c] == user {
      WrongUsesLimit(s, m.c, k, end);
    }
  }

  lemma {:induction false} TimePasses(s: Login, ms: seq<Move>, user: string, k: nat)
    requires Tries(s, ms, user, k)
    ensures s.now <= EndOf(s, ms, user, k).now
    decreases |ms|
  {
    if ms != [] {
      TimePasses(After(s, ms[0]), ms[1..], user, k);
    }
  }

  lemma {:induction false} TriesAreLimited(s: Login, ms: seq<Move>, user: string, k: nat)
    requires Tries(s, ms, user, k) && Bounded(s, user, k) && 1 <= k
    ensures WrongOnes(s, ms, user, k) <= LeftOver(s, user, k, EndOf(s, ms, user, k).now)
    decreases |ms|
  {
    if ms != [] {
      TimePasses(After(s, ms[0]), ms[1..], user, k);
      MoveKeepsBounded(s, ms[0], user, k);
      MoveUsesLimit(s, ms[0], user, k, EndOf(s, ms, user, k).now);
      TriesAreLimited(After(s, ms[0]), ms[1..], user, k);
    }
  }

  /**
   With at most `k` overlapping logins of an account, at most 4 + k wrong passwords are compared per quarter of an hour
   begun: five exactly if logins do not overlap.
   */
  lemma GuessesPerPeriod(s: Login, ms: seq<Move>, user: string, k: nat)
    requires Tries(s, ms, user, k) && 1 <= k && !Counting(s.lockout, user, s.now)
    ensures WrongOnes(s, ms, user, k) <= ((EndOf(s, ms, user, k).now - s.now) / 900_000 + 1) * (4 + k)
  {
    TimePasses(s, ms, user, k);
    TriesAreLimited(s, ms, user, k);
  }

  // ----- The limit is reached -----

  function AllTry(user: string, n: nat): map<nat, string> {
    if n == 0 then map[] else AllTry(user, n - 1)[n - 1 := user]
  }

  lemma {:induction false} AllTryHas(user: string, n: nat, c: nat)
    ensures c in AllTry(user, n) <==> c < n
    decreases n
  {
    if n > 0 {
      AllTryHas(user, n - 1, c);
    }
  }

  lemma {:induction false} InFlightOf(s: Login, user: string, n: nat)
    requires s.comparing == AllTry(user, n)
    ensures |InFlight(s, user)| == n
    decreases n
  {
    if n == 0 {
      assert InFlight(s, user) == {};
    } else {
      AllTryHas(user, n - 1, n - 1);
      OneLess(s, n - 1);
      assert s.comparing - {n - 1} == AllTry(user, n - 1);
      InFlightOf(s.(comparing := s.comparing - {n - 1}), user, n - 1);
    }
  }

  /** All calls under way fail. */
  lemma {:induction false} AllWrong(s: Login, user: string, n: nat, k: nat) returns (ms: seq<Move>)
    requires s.comparing == AllTry(user, n) && n <= k
    ensures Tries(s, ms, user, k) && WrongOnes(s, ms, user, k) == n && EndOf(s, ms, user, k).now == s.now
    decreases n
  {
    InFlightOf(s, user, n);
    ms := [];
    if n > 0 {
      var m := Wrong(n - 1);
      AllTryHas(user, n - 1, n - 1);
      assert After(s, m).comparing == AllTry(user, n - 1);
      var rest := AllWrong(After(s, m), user, n - 1, k);
      ms := [m] + rest;
      assert ms[1..] == rest;
    }
  }

  /** Calls number `m` to `n` pass the check before any of them fails. */
  lemma {:induction false} AllPass(s: Login, user: string, m: nat, n: nat, k: nat) returns (ms: seq<Move>)
    requires s.comparing == AllTry(user, m) && m <= n <= k && !Locked(s.lockout, user, s.now)
    ensures Tries(s, ms, user, k) && WrongOnes(s, ms, user, k) == n && EndOf(s, ms, user, k).now == s.now
    decreases n - m
  {
    InFlightOf(s, user, m);
    if m == n {
      ms := AllWrong(s, user, n, k);
    } else {
      var check := Check(m, user);
      AllTryHas(user, m, m);
      assert After(s, check).comparing == AllTry(user, m + 1);
      var rest := AllPass(After(s, check), user, m + 1, n, k);
      ms := [check] + rest;
      assert ms[1..] == rest;
    }
  }

  /** `j` logins one by one, then `k` at once. */
  lemma {:induction false} OneByOne(s: Login, user: string, j: nat, k: nat) returns (ms: seq<Move>)
    requires s.comparing == map[] && 1 <= k && j < LOCKOUT_MAX_ATTEMPTS
    requires Counting(s.lockout, user, s.now) ==> s.lockout[user].count + j < LOCKOUT_MAX_ATTEMPTS
    ensures Tries(s, ms, user, k) && WrongOnes(s, ms, user, k) == j + k && EndOf(s, ms, user, k).now == s.now
    decreases j
  {
    assert s.comparing == AllTry(user, 0);
    InFlightOf(s, user, 0);
    if j == 0 {
      ms := AllPass(s, user, 0, k, k);
    } else {
      var checked := After(s, Check(0, user));
      assert checked.comparing == AllTry(user, 1);
      InFlightOf(checked, user, 1);
      var failed := After(checked, Wrong(0));
      assert failed.comparing == map[];
      var rest := OneByOne(failed, user, j - 1, k);
      var more := [Wrong(0)] + rest;
      assert more[1..] == rest;
      ms := [Check(0, user)] + more;
      assert ms[1..] == more;
    }
  }

  /** No smaller limit holds: without any time passing, 4 + k wrong passwords can be compared. */
  lemma LimitIsReached(user: string, k: nat) returns (s: Login, ms: seq<Move>)
    requires 1 <= k
    ensures s.lockout == map[] && Tries(s, ms, user, k) && EndOf(s, ms, user, k).now == s.now
    ensures WrongOnes(s, ms, user, k) == LOCKOUT_MAX_ATTEMPTS - 1 + k
  {
    s := Login(0, map[], map[]);
    ms := OneByOne(s, user, LOCKOUT_MAX_ATTEMPTS - 1, k);
  }
}
