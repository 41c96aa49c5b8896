/**
 How far a cleanup does what its preview announced. The preview ranks the pool by the platform's activity
 time and trusts the platform's current flag; the cleanup ranks by the ledger's own time and also knows
 the session of its token.
 */
module SessionAgreement {
  import opened Prelude
  import opened Vault
  import opened Ranking
  import opened Sessions

  ghost predicate DistinctSids(sessions: seq<Live>) {
    forall i, j :: 0 <= i < j < |sessions| ==> sessions[i].sid != sessions[j].sid
  }

  ghost function LastActive(live: map<string, Live>): Rank {
    map sid | sid in live :: live[sid].lastActive
  }

  ghost function CandidateSids(ledger: map<string, Managed>, live: map<string, Live>): set<string> {
    set sid | sid in live && sid in ledger && !live[sid].current && !ledger[sid].pinned
  }

  /** With distinct sids the preview's pool is the set of candidates, ranked by activity. */
  lemma {:induction false} PoolOfCandidates(ledger: map<string, Managed>, sessions: seq<Live>)
    requires DistinctSids(sessions)
    ensures var live := LiveOf(sessions);
            multiset(CandidatePool(ledger, sessions)) ==
            multiset(AgedSet(CandidateSids(ledger, live), LastActive(live)))
  {
    if sessions != [] {
      var front, s := sessions[..|sessions| - 1], Last(sessions);
      PoolOfCandidates(ledger, front);
      LiveHoldsListed(front);
      NextCandidate(ledger, LiveOf(front), s);
    } else {
      assert CandidateSids(ledger, map[]) == {};
    }
  }

  lemma NextCandidate(ledger: map<string, Managed>, live: map<string, Live>, s: Live)
    requires s.sid !in live
    ensures var more := live[s.sid := s];
            multiset(AgedSet(CandidateSids(ledger, more), LastActive(more))) ==
            multiset(AgedSet(CandidateSids(ledger, live), LastActive(live))) +
            if Candidate(ledger, s) then multiset{Aged(s.sid, s.lastActive)} else multiset{}
  {
    var more := live[s.sid := s];
    var sids := CandidateSids(ledger, live);
    AgedSame(sids, LastActive(live), LastActive(more));
    if Candidate(ledger, s) {
      assert CandidateSids(ledger, more) == sids + {s.sid};
      AgedInsert(sids, LastActive(more), s.sid);
    } else {
      assert CandidateSids(ledger, more) == sids;
    }
  }

  /** The session in use, when the platform does not flag it as current: a preview counts it, a cleanup does not. */
  predicate UnflaggedCurrent(ledger: map<string, Managed>, live: map<string, Live>, current: string) {
    current in ledger && current in live && !live[current].current && !ledger[current].pinned
  }

  lemma CandidatesAndDisposable(ledger: map<string, Managed>, live: map<string, Live>, current: string)
    ensures CandidateSids(ledger, live) ==
            DisposableSids(ledger, live, current) + if UnflaggedCurrent(ledger, live, current) then {current} else {}
    ensures current !in DisposableSids(ledger, live, current)
  {}

  lemma PoolSizes(ledger: map<string, Managed>, sessions: seq<Live>, current: string)
    requires DistinctSids(sessions)
    ensures |CandidatePool(ledger, sessions)| ==
            |PoolOf(ledger, LiveOf(sessions), current)| +
            if UnflaggedCurrent(ledger, LiveOf(sessions), current) then 1 else 0
  {
    var live := LiveOf(sessions);
    PoolOfCandidates(ledger, sessions);
    MultisetSizes(CandidatePool(ledger, sessions), AgedSet(CandidateSids(ledger, live), LastActive(live)));
    AgedCount(CandidateSids(ledger, live), LastActive(live));
    AgedCount(DisposableSids(ledger, live, current), LastSeen(ledger));
    CandidatesAndDisposable(ledger, live, current);
  }

  lemma MultisetSizes(s: seq<Aged>, a: set<Aged>)
    requires multiset(s) == multiset(a)
    ensures |s| == |a|
  {
    assert |multiset(s)| == |multiset(a)|;
  }

  lemma SplitSize(pool: multiset<Aged>, n: nat, kept: seq<Aged>, dropped: seq<Aged>)
    requires SplitOf(pool, n, kept, dropped)
    ensures |dropped| == |pool| - Min(n, |pool|)
  {
    assert |multiset(kept) + multiset(dropped)| == |kept| + |dropped|;
  }

  /**
   With distinct sids the cleanup tries as many as the preview announced, except when it announces the
   session in use.
   */
  lemma CountsAgreeUnlessUnflagged(managed: seq<Managed>, sessions: seq<Live>, current: string, limit: nat,
                                   kept: seq<Aged>, chosen: seq<Aged>, spared: seq<Aged>, tried: seq<Aged>)
    requires DistinctSids(sessions)
    requires PreviewSplit(managed, sessions, limit, kept, chosen)
    requires CleanSplit(managed, sessions, current, limit, spared, tried)
    ensures |tried| == |chosen| <==>
            || !UnflaggedCurrent(LedgerOf(managed), LiveOf(sessions), current)
            || |CandidatePool(LedgerOf(managed), sessions)| <= limit
  {
    var ledger := LedgerOf(managed);
    PoolSizes(ledger, sessions, current);
    SplitSize(multiset(CandidatePool(ledger, sessions)), limit, kept, chosen);
    SplitSize(multiset(PoolOf(ledger, LiveOf(sessions), current)), limit, spared, tried);
  }

  // ----- not only as many: the same ones -----

  /** Whatever the ties, the map order and the sort, the cleanup tries exactly the sessions the preview announced. */
  ghost predicate NamesTheSame(managed: seq<Managed>, sessions: seq<Live>, current: string, limit: nat) {
    forall kept, chosen, spared, tried ::
      PreviewSplit(managed, sessions, limit, kept, chosen)
      && CleanSplit(managed, sessions, current, limit, spared, tried) ==>
        SidSet(chosen) == SidSet(tried)
  }

  /** Every preview names the complement of a choice by activity, every cleanup that of a choice by ledger time. */
  lemma SplitsAreChoices(managed: seq<Managed>, sessions: seq<Live>, current: string, limit: nat,
                         kept: seq<Aged>, chosen: seq<Aged>, spared: seq<Aged>, tried: seq<Aged>)
    requires DistinctSids(sessions) && !UnflaggedCurrent(LedgerOf(managed), LiveOf(sessions), current)
    requires PreviewSplit(managed, sessions, limit, kept, chosen)
    requires CleanSplit(managed, sessions, current, limit, spared, tried)
    ensures var p := DisposableSids(LedgerOf(managed), LiveOf(sessions), current);
            && Top(p, LastActive(LiveOf(sessions)), limit, SidSet(kept)) && SidSet(chosen) == p - SidSet(kept)
            && Top(p, LastSeen(LedgerOf(managed)), limit, SidSet(spared)) && SidSet(tried) == p - SidSet(spared)
  {
    var ledger, live := LedgerOf(managed), LiveOf(sessions);
    var p := DisposableSids(ledger, live, current);
    PoolOfCandidates(ledger, sessions);
    CandidatesAndDisposable(ledger, live, current);
    SplitIsTop(p, LastActive(live), limit, kept, chosen);
    SplitIsTop(p, LastSeen(ledger), limit, spared, tried);
  }

  lemma ChoicesAreSplits(managed: seq<Managed>, sessions: seq<Live>, current: string, limit: nat, k: set<string>,
                         l: set<string>)
      returns (kept: seq<Aged>, chosen: seq<Aged>, spared: seq<Aged>, tried: seq<Aged>)
    requires DistinctSids(sessions) && !UnflaggedCurrent(LedgerOf(managed), LiveOf(sessions), current)
    requires var p := DisposableSids(LedgerOf(managed), LiveOf(sessions), current);
             && Top(p, LastActive(LiveOf(sessions)), limit, k)
             && Top(p, LastSeen(LedgerOf(managed)), limit, l)
    ensures PreviewSplit(managed, sessions, limit, kept, chosen)
    ensures CleanSplit(managed, sessions, current, limit, spared, tried)
    ensures var p := DisposableSids(LedgerOf(managed), LiveOf(sessions), current);
            SidSet(chosen) == p - k && SidSet(tried) == p - l
  {
    var ledger, live := LedgerOf(managed), LiveOf(sessions);
    var p := DisposableSids(ledger, live, current);
    PoolOfCandidates(ledger, sessions);
    CandidatesAndDisposable(ledger, live, current);
    kept, chosen := TopIsSplit(p, LastActive(live), limit, k);
    spared, tried := TopIsSplit(p, LastSeen(ledger), limit, l);
  }

  lemma NamesTheSameFlagged(managed: seq<Managed>, sessions: seq<Live>, current: string, limit: nat)
    requires DistinctSids(sessions) && !UnflaggedCurrent(LedgerOf(managed), LiveOf(sessions), current)
    ensures NamesTheSame(managed, sessions, current, limit) <==>
            CommonCut(DisposableSids(LedgerOf(managed), LiveOf(sessions), current),
                      LastActive(LiveOf(sessions)), LastSeen(LedgerOf(managed)), limit)
  {
    var ledger, live := LedgerOf(managed), LiveOf(sessions);
    var p, r, s := DisposableSids(ledger, live, current), LastActive(live), LastSeen(ledger);
    OneChoiceIffCommonCut(p, r, s, limit);
    if NamesTheSame(managed, sessions, current, limit) {
      forall k, l | Top(p, r, limit, k) && Top(p, s, limit, l) ensures k == l {
        var kept, chosen, spared, tried := ChoicesAreSplits(managed, sessions, current, limit, k, l);
        SameComplement(p, k, l);
      }
    }
    if OneChoice(p, r, s, limit) {
      forall kept, chosen, spared, tried |
        PreviewSplit(managed, sessions, limit, kept, chosen)
        && CleanSplit(managed, sessions, current, limit, spared, tried)
        ensures SidSet(chosen) == SidSet(tried)
      {
        SplitsAreChoices(managed, sessions, current, limit, kept, chosen, spared, tried);
      }
    }
  }

  lemma SomePreview(managed: seq<Managed>, sessions: seq<Live>, limit: nat) returns (kept: seq<Aged>, chosen: seq<Aged>)
    requires DistinctSids(sessions)
    ensures PreviewSplit(managed, sessions, limit, kept, chosen)
    ensures var n := |CandidatePool(LedgerOf(managed), sessions)|;
            |SidSet(chosen)| == n - Min(limit, n)
  {
    var ledger, live := LedgerOf(managed), LiveOf(sessions);
    var c := CandidateSids(ledger, live);
    var k := TopExists(c, LastActive(live), limit);
    kept, chosen := TopIsSplit(c, LastActive(live), limit, k);
    PoolOfCandidates(ledger, sessions);
    MultisetSizes(CandidatePool(ledger, sessions), AgedSet(c, LastActive(live)));
    AgedCount(c, LastActive(live));
  }

  lemma SomeCleanup(managed: seq<Managed>, sessions: seq<Live>, current: string, limit: nat)
      returns (spared: seq<Aged>, tried: seq<Aged>)
    ensures CleanSplit(managed, sessions, current, limit, spared, tried)
    ensures var n := |PoolOf(LedgerOf(managed), LiveOf(sessions), current)|;
            |SidSet(tried)| == n - Min(limit, n)
  {
    var ledger, live := LedgerOf(managed), LiveOf(sessions);
    var p := DisposableSids(ledger, live, current);
    var l := TopExists(p, LastSeen(ledger), limit);
    spared, tried := TopIsSplit(p, LastSeen(ledger), limit, l);
    AgedCount(p, LastSeen(ledger));
  }

  /** With nothing to announce, nothing is tried either. */
  lemma NothingNamed(managed: seq<Managed>, sessions: seq<Live>, current: string, limit: nat)
    requires DistinctSids(sessions) && |CandidatePool(LedgerOf(managed), sessions)| <= limit
    ensures NamesTheSame(managed, sessions, current, limit)
  {
    var ledger, live := LedgerOf(managed), LiveOf(sessions);
    PoolSizes(ledger, sessions, current);
    forall kept, chosen, spared, tried |
      PreviewSplit(managed, sessions, limit, kept, chosen)
      && CleanSplit(managed, sessions, current, limit, spared, tried)
      ensures SidSet(chosen) == SidSet(tried)
    {
      SplitSize(multiset(CandidatePool(ledger, sessions)), limit, kept, chosen);
      SplitSize(multiset(PoolOf(ledger, live, current)), limit, spared, tried);
    }
  }

  /** With an unflagged session in use the numbers differ as soon as anything is announced. */
  lemma NamesTheSameUnflagged(managed: seq<Managed>, sessions: seq<Live>, current: string, limit: nat)
    requires DistinctSids(sessions) && UnflaggedCurrent(LedgerOf(managed), LiveOf(sessions), current)
    ensures NamesTheSame(managed, sessions, current, limit) <==> |CandidatePool(LedgerOf(managed), sessions)| <= limit
  {
    if |CandidatePool(LedgerOf(managed), sessions)| <= limit {
      NothingNamed(managed, sessions, current, limit);
    } else {
      var kept, chosen := SomePreview(managed, sessions, limit);
      var spared, tried := SomeCleanup(managed, sessions, current, limit);
      PoolSizes(LedgerOf(managed), sessions, current);
      assert |SidSet(chosen)| != |SidSet(tried)|;
    }
  }

  /**
   With distinct sids, the cleanup is sure to try exactly the announced sessions if and only if nothing is
   announced or, the session in use being flagged, `limit` of the pool are strictly newer than all the
   others by activity and by ledger time alike.
   */
  lemma NamesTheSameIff(managed: seq<Managed>, sessions: seq<Live>, current: string, limit: nat)
    requires DistinctSids(sessions)
    ensures NamesTheSame(managed, sessions, current, limit) <==>
            if UnflaggedCurrent(LedgerOf(managed), LiveOf(sessions), current) then
              |CandidatePool(LedgerOf(managed), sessions)| <= limit
            else
              CommonCut(DisposableSids(LedgerOf(managed), LiveOf(sessions), current),
                        LastActive(LiveOf(sessions)), LastSeen(LedgerOf(managed)), limit)
  {
    if UnflaggedCurrent(LedgerOf(managed), LiveOf(sessions), current) {
      NamesTheSameUnflagged(managed, sessions, current, limit);
    } else {
      NamesTheSameFlagged(managed, sessions, current, limit);
    }
  }

  lemma SameComplement(p: set<string>, k: set<string>, l: set<string>)
    requires k <= p && l <= p && p - k == p - l
    ensures k == l
  {
    assert k == p - (p - k) && l == p - (p - l);
  }

  // ----- an instance where they differ -----

  const TWO_MANAGED: seq<Managed> := [Managed("a", true, 1, false), Managed("b", true, 2, false)]
  const TWO_LISTED: seq<Live> := [Live("a", false, 9), Live("b", false, 3)]

  lemma TwoLedger() returns (ledger: map<string, Managed>, live: map<string, Live>)
    ensures ledger == LedgerOf(TWO_MANAGED) == map["a" := TWO_MANAGED[0], "b" := TWO_MANAGED[1]]
    ensures live == LiveOf(TWO_LISTED) == map["a" := TWO_LISTED[0], "b" := TWO_LISTED[1]]
  {
    ledger, live := LedgerOf(TWO_MANAGED), LiveOf(TWO_LISTED);
    assert TWO_MANAGED == [TWO_MANAGED[0]] + [TWO_MANAGED[1]] && [TWO_MANAGED[0]] == [] + [TWO_MANAGED[0]];
    LedgerSnoc([], TWO_MANAGED[0]);
    LedgerSnoc([TWO_MANAGED[0]], TWO_MANAGED[1]);
    assert TWO_LISTED == [TWO_LISTED[0]] + [TWO_LISTED[1]] && [TWO_LISTED[0]] == [] + [TWO_LISTED[0]];
    LiveSnoc([], TWO_LISTED[0]);
    LiveSnoc([TWO_LISTED[0]], TWO_LISTED[1]);
  }

  /** Two sessions, one to keep: the preview always announces the one the cleanup always spares. */
  lemma PreviewNamesAnother(kept: seq<Aged>, chosen: seq<Aged>, spared: seq<Aged>, tried: seq<Aged>)
    requires PreviewSplit(TWO_MANAGED, TWO_LISTED, 1, kept, chosen)
    requires CleanSplit(TWO_MANAGED, TWO_LISTED, "", 1, spared, tried)
    ensures SidSet(chosen) == {"b"} && SidSet(tried) == {"a"}
  {
    var ledger, live := TwoLedger();
    var p := TwoCuts();
    SplitsAreChoices(TWO_MANAGED, TWO_LISTED, "", 1, kept, chosen, spared, tried);
    StrictCutIsOnly(p, LastActive(live), 1, {"a"}, SidSet(kept));
    StrictCutIsOnly(p, LastSeen(ledger), 1, {"b"}, SidSet(spared));
  }

  lemma TwoCuts() returns (p: set<string>)
    ensures p == DisposableSids(LedgerOf(TWO_MANAGED), LiveOf(TWO_LISTED), "") == {"a", "b"} && |p| == 2
    ensures StrictCut(p, LastActive(LiveOf(TWO_LISTED)), {"a"}) && StrictCut(p, LastSeen(LedgerOf(TWO_MANAGED)), {"b"})
  {
    var ledger, live := TwoLedger();
    p := {"a", "b"};
    assert LastActive(live) == map["a" := 9, "b" := 3] && LastSeen(ledger) == map["a" := 1, "b" := 2];
    assert DisposableSids(ledger, live, "") == p;
  }
}
