/**
 The referral relation.  A `Refs` maps a user to the one who referred them; users without a referrer,
 or hidden from the query at hand, are not in it.  Any finite graph of this kind is allowed: chains,
 trees, cycles and self-referrals.
 */
module Referral {
  import opened Basics

  const NETWORK_LEVEL_CAP: nat := 10

  type Refs = map<string, string>

  /** The user `k` hops up from `u`, if the chain is that long. */
  function AncestorAt(refs: Refs, u: string, k: nat): Option<string>
    decreases k, u
  {
    if k == 0 then Some(u) else if u in refs then AncestorAt(refs, refs[u], k - 1) else None
  }

  // ----- Reaching a head within n hops, the head itself included -----

  predicate ReachesWithin(refs: Refs, u: string, head: string, n: nat)
    decreases n, u
  {
    u == head || (n > 0 && u in refs && ReachesWithin(refs, refs[u], head, n - 1))
  }

  /** Everyone at most `n` hops below `head`, and `head`. */
  function Network(refs: Refs, head: string, n: nat): set<string> {
    set u | u in refs.Keys + {head} && ReachesWithin(refs, u, head, n)
  }

  /** The distinct descendants at distance 1..NETWORK_LEVEL_CAP; the head never counts as its own. */
  function Downline(refs: Refs, head: string): set<string> {
    Network(refs, head, NETWORK_LEVEL_CAP) - {head}
  }

  function ChildrenOf(refs: Refs, parents: set<string>): set<string> {
    set u | u in refs && refs[u] in parents
  }

  function ToSet(xs: seq<string>): set<string> {
    set x | x in xs
  }

  lemma {:induction false} AncestorIsReached(refs: Refs, u: string, head: string, n: nat, k: nat)
    requires k <= n && AncestorAt(refs, u, k) == Some(head)
    ensures ReachesWithin(refs, u, head, n)
    decreases n
  {
    if k > 0 {
      AncestorIsReached(refs, refs[u], head, n - 1, k - 1);
    }
  }

  lemma {:induction false} ReachedIsAncestor(refs: Refs, u: string, head: string, n: nat) returns (k: nat)
    requires ReachesWithin(refs, u, head, n)
    ensures k <= n && AncestorAt(refs, u, k) == Some(head)
    decreases n
  {
    if u == head {
      k := 0;
    } else {
      var j := ReachedIsAncestor(refs, refs[u], head, n - 1);
      k := j + 1;
    }
  }

  /** The downline are the users other than the head that find the head at most NETWORK_LEVEL_CAP hops up. */
  lemma DownlineIsByAncestors(refs: Refs, head: string, u: string)
    ensures u in Downline(refs, head) <==>
            u != head && exists k: nat | k <= NETWORK_LEVEL_CAP :: AncestorAt(refs, u, k) == Some(head)
  {
    if u in Downline(refs, head) {
      var k := ReachedIsAncestor(refs, u, head, NETWORK_LEVEL_CAP);
    }
    if k: nat :| k <= NETWORK_LEVEL_CAP && AncestorAt(refs, u, k) == Some(head) {
      AncestorIsReached(refs, u, head, NETWORK_LEVEL_CAP, k);
      assert u != head ==> u in refs;
    }
  }

  lemma {:induction false} ReachesWithinGrows(refs: Refs, u: string, head: string, n: nat)
    requires ReachesWithin(refs, u, head, n)
    ensures ReachesWithin(refs, u, head, n + 1)
    decreases n
  {
    if u != head {
      ReachesWithinGrows(refs, refs[u], head, n - 1);
    }
  }

  /** The users at distance exactly `n`. */
  function Newest(refs: Refs, head: string, n: nat): set<string> {
    Network(refs, head, n) - if n == 0 then {} else Network(refs, head, n - 1)
  }

  /** One breadth-first round: the next network is the current one and the children of its newest layer. */
  lemma NetworkRound(refs: Refs, head: string, n: nat)
    ensures Network(refs, head, n + 1) == Network(refs, head, n) + ChildrenOf(refs, Newest(refs, head, n))
  {
    var newest := Newest(refs, head, n);
    forall u | u in Network(refs, head, n + 1) && u != head
      ensures u in Network(refs, head, n) + ChildrenOf(refs, newest)
    {
      assert ReachesWithin(refs, refs[u], head, n);
      assert refs[u] in Network(refs, head, n);
      if n > 0 && refs[u] in Network(refs, head, n - 1) {
        assert ReachesWithin(refs, u, head, n);
      }
    }
    forall u | u in Network(refs, head, n) + ChildrenOf(refs, newest)
      ensures u in Network(refs, head, n + 1)
    {
      if u in Network(refs, head, n) {
        ReachesWithinGrows(refs, u, head, n);
      } else {
        assert ReachesWithin(refs, refs[u], head, n);
      }
    }
  }

  /** What a search knows after visiting layer `n` + 1, given everything visited `before`. */
  lemma LayerVisited(refs: Refs, head: string, n: nat, before: set<string>, visited: set<string>)
    requires before == Network(refs, head, n)
    requires visited == before + ChildrenOf(refs, Newest(refs, head, n))
    ensures visited == Network(refs, head, n + 1) && visited - before == Newest(refs, head, n + 1)
  {
    NetworkRound(refs, head, n);
  }

  /** A search that ran out of users, or of levels, has found the downline. */
  lemma SearchComplete(refs: Refs, head: string, n: nat, visited: set<string>)
    requires n <= NETWORK_LEVEL_CAP && visited == Network(refs, head, n)
    requires n == NETWORK_LEVEL_CAP || ChildrenOf(refs, Newest(refs, head, n)) == {}
    ensures visited - {head} == Downline(refs, head)
  {
    if n < NETWORK_LEVEL_CAP {
      NetworkFixpoint(refs, head, n, NETWORK_LEVEL_CAP);
    }
  }

  /** A layer without children ends the search: deeper bounds add nobody. */
  lemma {:induction false} NetworkFixpoint(refs: Refs, head: string, m: nat, n: nat)
    requires m <= n && ChildrenOf(refs, Newest(refs, head, m)) == {}
    ensures Network(refs, head, n) == Network(refs, head, m)
    decreases n - m
  {
    if m < n {
      NetworkRound(refs, head, m);
      assert Newest(refs, head, m + 1) == {};
      NetworkFixpoint(refs, head, m + 1, n);
    }
  }

  // ----- Distance from a head, starting at the direct referrals -----

  /** The number of hops after which the chain from `u` first meets `head`, if that is at most `n`. */
  function Depth(refs: Refs, u: string, head: string, n: nat): Option<nat>
    decreases n, u
  {
    if n == 0 || u !in refs then None
    else if refs[u] == head then Some(1)
    else
      match Depth(refs, refs[u], head, n - 1)
      case None => None
      case Some(d) => Some(d + 1)
  }

  /** The direct referral of `head` through which `u` belongs to the network. */
  function Anchor(refs: Refs, u: string, head: string, n: nat): string
    decreases n, u
  {
    if n == 0 || u !in refs || refs[u] == head then u else Anchor(refs, refs[u], head, n - 1)
  }

  lemma {:induction false} DepthIsFirstMeeting(refs: Refs, u: string, head: string, n: nat)
    ensures var d := Depth(refs, u, head, n);
            && (d.Some? ==> 1 <= d.value <= n && AncestorAt(refs, u, d.value) == Some(head)
                            && forall k: nat | 1 <= k < d.value :: AncestorAt(refs, u, k) != Some(head))
            && (d.None? ==> forall k: nat | 1 <= k <= n :: AncestorAt(refs, u, k) != Some(head))
    decreases n
  {
    if n > 0 && u in refs && refs[u] != head {
      DepthIsFirstMeeting(refs, refs[u], head, n - 1);
      forall k: nat | 1 <= k
        ensures AncestorAt(refs, u, k) == AncestorAt(refs, refs[u], k - 1)
      {
      }
      assert AncestorAt(refs, refs[u], 0) == Some(refs[u]);
      if Depth(refs, u, head, n).Some? {
        var d := Depth(refs, u, head, n).value;
        forall k: nat | 1 <= k < d
          ensures AncestorAt(refs, u, k) != Some(head)
        {
          if k > 1 {
            assert AncestorAt(refs, refs[u], k - 1) != Some(head);
          }
        }
      } else {
        forall k: nat | 1 <= k <= n
          ensures AncestorAt(refs, u, k) != Some(head)
        {
          if k > 1 {
            assert AncestorAt(refs, refs[u], k - 1) != Some(head);
          }
        }
      }
    }
  }

  /** The anchor sits one hop below the head, on the chain from `u`. */
  lemma {:induction false} AnchorIsDepthOne(refs: Refs, u: string, head: string, n: nat)
    requires Depth(refs, u, head, n).Some?
    ensures AncestorAt(refs, u, Depth(refs, u, head, n).value - 1) == Some(Anchor(refs, u, head, n))
    ensures Anchor(refs, u, head, n) in refs && refs[Anchor(refs, u, head, n)] == head
    decreases n
  {
    if refs[u] != head {
      AnchorIsDepthOne(refs, refs[u], head, n - 1);
    }
  }

  /** A larger bound does not change a depth that was found. */
  lemma {:induction false} DepthStable(refs: Refs, u: string, head: string, n: nat)
    ensures Depth(refs, u, head, n).Some? ==>
              Depth(refs, u, head, n + 1) == Depth(refs, u, head, n) && Depth(refs, u, head, n).value <= n
              && Anchor(refs, u, head, n + 1) == Anchor(refs, u, head, n)
    ensures Depth(refs, u, head, n).None? && Depth(refs, u, head, n + 1).Some? ==>
        Depth(refs, u, head, n + 1) == Some(n + 1)
    decreases n
  {
    if n > 0 && u in refs && refs[u] != head {
      DepthStable(refs, refs[u], head, n - 1);
    }
  }

  /** One breadth-first round from layer `n` >= 1: exactly the unseen children of the layer have depth n + 1. */
  lemma DepthRound(refs: Refs, u: string, head: string, n: nat)
    requires n >= 1
    ensures Depth(refs, u, head, n + 1) == Some(n + 1) <==>
            Depth(refs, u, head, n).None? && u in refs && Depth(refs, refs[u], head, n) == Some(n)
    ensures Depth(refs, u, head, n + 1) == Some(n + 1) ==>
              Anchor(refs, u, head, n + 1) == Anchor(refs, refs[u], head, n)
  {
    DepthStable(refs, u, head, n);
    if u in refs {
      DepthStable(refs, refs[u], head, n - 1);
      DepthStable(refs, refs[u], head, n);
    }
  }
}
