/** Keeping the newest n of a set under a ranking with ties: which choices there are, and when two rankings agree. */
module Ranking {
  import opened Prelude

  /** A session and the instant it is ranked by. */
  datatype Aged = Aged(sid: string, seen: int)

  function Min(a: nat, b: nat): nat {
    if a < b then a else b
  }

  type Rank = map<string, int>

  /** A choice of n members of p, none of them older than one left out. */
  ghost predicate Top(p: set<string>, rank: Rank, n: nat, k: set<string>) {
    && p <= rank.Keys && k <= p && |k| == Min(n, |p|)
    && forall a, b :: a in k && b in p - k ==> rank[a] >= rank[b]
  }

  /** Every member of k is strictly newer than every other member of p. */
  ghost predicate StrictCut(p: set<string>, rank: Rank, k: set<string>) {
    p <= rank.Keys && k <= p && forall a, b :: a in k && b in p - k ==> rank[a] > rank[b]
  }

  lemma {:induction false} NewestExists(p: set<string>, rank: Rank) returns (m: string)
    requires p != {} && p <= rank.Keys
    ensures m in p && forall a :: a in p ==> rank[a] <= rank[m]
  {
    m :| m in p;
    var rest := p - {m};
    assert p == rest + {m};
    if rest != {} {
      var r := NewestExists(rest, rank);
      if rank[r] > rank[m] {
        m := r;
      }
    }
  }

  lemma {:induction false} TopExists(p: set<string>, rank: Rank, n: nat) returns (k: set<string>)
    requires p <= rank.Keys
    ensures Top(p, rank, n, k)
    decreases n
  {
    if n == 0 || p == {} {
      k := {};
    } else {
      var m := NewestExists(p, rank);
      var rest := TopExists(p - {m}, rank, n - 1);
      k := rest + {m};
      assert |k| == |rest| + 1 && |p - {m}| == |p| - 1;
      assert p - k == (p - {m}) - rest;
    }
  }

  lemma SameSizeSubset(a: set<string>, b: set<string>)
    requires a <= b && |a| == |b|
    ensures a == b
  {
    assert b == a + (b - a);
    assert a !! b - a;
    assert |b| == |a| + |b - a|;
  }

  /** A strict cut is the only choice of its size. */
  lemma StrictCutIsOnly(p: set<string>, rank: Rank, n: nat, k: set<string>, l: set<string>)
    requires StrictCut(p, rank, k) && |k| == Min(n, |p|) && Top(p, rank, n, l)
    ensures l == k
  {
    forall a | a in k ensures a in l {
      if l <= k {
        SameSizeSubset(l, k);
      } else {
        var b :| b in l && b !in k;
        assert rank[a] > rank[b];
      }
    }
    SameSizeSubset(k, l);
  }

  /** A choice that is no strict cut has a rival, one swap away. */
  lemma RivalBySwap(p: set<string>, rank: Rank, n: nat, k: set<string>) returns (l: set<string>)
    requires Top(p, rank, n, k) && !StrictCut(p, rank, k)
    ensures Top(p, rank, n, l) && l != k
  {
    var a, b :| a in k && b in p - k && rank[a] <= rank[b];
    l := k - {a} + {b};
    assert |l| == |k|;
    assert b in l;
    forall x, y | x in l && y in p - l ensures rank[x] >= rank[y] {
      var x' := if x == b then a else x;
      var y' := if y == a then b else y;
      assert x' in k && y' in p - k;
    }
  }

  ghost predicate OneChoice(p: set<string>, r: Rank, s: Rank, n: nat) {
    forall k, l :: Top(p, r, n, k) && Top(p, s, n, l) ==> k == l
  }

  ghost predicate CommonCut(p: set<string>, r: Rank, s: Rank, n: nat) {
    |p| <= n || exists k :: |k| == n && StrictCut(p, r, k) && StrictCut(p, s, k)
  }

  /**
   Whatever the ties, two rankings choose the same n exactly when nothing is left out or one cut is
   strict in both.
   */
  lemma OneChoiceIffCommonCut(p: set<string>, r: Rank, s: Rank, n: nat)
    requires p <= r.Keys && p <= s.Keys
    ensures OneChoice(p, r, s, n) <==> CommonCut(p, r, s, n)
  {
    if OneChoice(p, r, s, n) && |p| > n {
      var k := TopExists(p, r, n);
      var l := TopExists(p, s, n);
      assert k == l;
      if !StrictCut(p, r, k) {
        var rival := RivalBySwap(p, r, n, k);
        assert false;
      }
      if !StrictCut(p, s, k) {
        var rival := RivalBySwap(p, s, n, k);
        assert false;
      }
    }
    if CommonCut(p, r, s, n) {
      forall k, l | Top(p, r, n, k) && Top(p, s, n, l) ensures k == l {
        if |p| <= n {
          SameSizeSubset(k, p);
          SameSizeSubset(l, p);
        } else {
          var c :| |c| == n && StrictCut(p, r, c) && StrictCut(p, s, c);
          StrictCutIsOnly(p, r, n, c, k);
          StrictCutIsOnly(p, s, n, c, l);
        }
      }
    }
  }

  // ----- choices as lists, the way code makes them -----

  ghost function AgedSet(p: set<string>, rank: Rank): set<Aged>
    requires p <= rank.Keys
  {
    set sid | sid in p :: Aged(sid, rank[sid])
  }

  ghost function SidSet(s: seq<Aged>): set<string> {
    set a | a in s :: a.sid
  }

  lemma AgedInsert(p: set<string>, rank: Rank, sid: string)
    requires p <= rank.Keys && sid in rank && sid !in p
    ensures AgedSet(p + {sid}, rank) == AgedSet(p, rank) + {Aged(sid, rank[sid])}
    ensures multiset(AgedSet(p + {sid}, rank)) == multiset(AgedSet(p, rank)) + multiset{Aged(sid, rank[sid])}
  {
    assert Aged(sid, rank[sid]) !in AgedSet(p, rank);
  }

  /** Only the ranks of the members matter. */
  lemma AgedSame(p: set<string>, r: Rank, s: Rank)
    requires p <= r.Keys && p <= s.Keys && forall sid :: sid in p ==> r[sid] == s[sid]
    ensures AgedSet(p, r) == AgedSet(p, s)
  {}

  lemma {:induction false} AgedCount(p: set<string>, rank: Rank)
    requires p <= rank.Keys
    ensures |AgedSet(p, rank)| == |p|
  {
    if sid :| sid in p {
      var rest := p - {sid};
      AgedCount(rest, rank);
      AgedInsert(rest, rank, sid);
      assert p == rest + {sid};
    }
  }

  /** The pool is split into the first min(n, pool) kept and the rest dropped, none of which is newer than one kept. */
  ghost predicate SplitOf(pool: multiset<Aged>, n: nat, kept: seq<Aged>, dropped: seq<Aged>) {
    && multiset(kept) + multiset(dropped) == pool
    && |kept| == Min(n, |pool|)
    && forall a, b :: a in kept && b in dropped ==> a.seen >= b.seen
  }

  /** A list split is a choice of sids: it keeps a top set, and drops the rest. */
  lemma SplitIsTop(p: set<string>, rank: Rank, n: nat, kept: seq<Aged>, dropped: seq<Aged>)
    requires p <= rank.Keys && SplitOf(multiset(AgedSet(p, rank)), n, kept, dropped)
    ensures Top(p, rank, n, SidSet(kept)) && SidSet(dropped) == p - SidSet(kept)
  {
    var pool := multiset(AgedSet(p, rank));
    AgedCount(p, rank);
    forall a ensures a in kept || a in dropped <==> a in AgedSet(p, rank) {
      assert a in multiset(kept) + multiset(dropped) <==> a in pool;
    }
    forall a, b | a in kept && b in dropped ensures a.sid != b.sid {
      assert a == Aged(a.sid, rank[a.sid]) && b == Aged(b.sid, rank[b.sid]);
      assert pool[a] == multiset(kept)[a] + multiset(dropped)[a] <= 1;
      assert multiset(kept)[a] >= 1 && multiset(dropped)[b] >= 1;
    }
    assert multiset(kept) <= pool;
    DistinctSidCount(p, rank, kept);
    assert SidSet(kept) + SidSet(dropped) == p by {
      forall sid | sid in p ensures sid in SidSet(kept) + SidSet(dropped) {
        assert Aged(sid, rank[sid]) in AgedSet(p, rank);
      }
    }
  }

  /** A list without repetition taken from the pool has as many sids as entries. */
  lemma {:induction false} DistinctSidCount(p: set<string>, rank: Rank, s: seq<Aged>)
    requires p <= rank.Keys && multiset(s) <= multiset(AgedSet(p, rank))
    ensures SidSet(s) <= p && |SidSet(s)| == |s|
  {
    if s != [] {
      var front, x := s[..|s| - 1], Last(s);
      assert s == front + [x];
      assert multiset(s) == multiset(front) + multiset{x};
      DistinctSidCount(p, rank, front);
      assert x in AgedSet(p, rank) && multiset(front)[x] == 0;
      forall a | a in front ensures a.sid != x.sid {
        assert a in multiset(front);
        assert a in AgedSet(p, rank);
      }
      assert SidSet(s) == SidSet(front) + {x.sid};
    }
  }

  lemma SidSetSnoc(s: seq<Aged>, a: Aged)
    ensures SidSet(s + [a]) == SidSet(s) + {a.sid}
  {
    assert Last(s + [a]) == a;
  }

  lemma {:induction false} Listed(p: set<string>, rank: Rank) returns (s: seq<Aged>)
    requires p <= rank.Keys
    ensures multiset(s) == multiset(AgedSet(p, rank)) && SidSet(s) == p && |s| == |p|
    ensures forall a :: a in s ==> a.sid in p && a.seen == rank[a.sid]
  {
    if sid :| sid in p {
      var rest := Listed(p - {sid}, rank);
      s := rest + [Aged(sid, rank[sid])];
      AgedInsert(p - {sid}, rank, sid);
      assert p == p - {sid} + {sid};
      SidSetSnoc(rest, Aged(sid, rank[sid]));
    } else {
      s := [];
      assert AgedSet(p, rank) == {};
    }
  }

  /** Every choice is some list split. */
  lemma TopIsSplit(p: set<string>, rank: Rank, n: nat, k: set<string>) returns (kept: seq<Aged>, dropped: seq<Aged>)
    requires Top(p, rank, n, k)
    ensures SplitOf(multiset(AgedSet(p, rank)), n, kept, dropped) && SidSet(kept) == k && SidSet(dropped) == p - k
  {
    kept := Listed(k, rank);
    dropped := Listed(p - k, rank);
    AgedCount(p, rank);
    AgedUnion(p, rank, k);
  }

  lemma AgedUnion(p: set<string>, rank: Rank, k: set<string>)
    requires p <= rank.Keys && k <= p
    ensures multiset(AgedSet(p, rank)) == multiset(AgedSet(k, rank)) + multiset(AgedSet(p - k, rank))
  {
    assert AgedSet(p, rank) == AgedSet(k, rank) + AgedSet(p - k, rank);
    assert AgedSet(k, rank) !! AgedSet(p - k, rank);
  }
}
