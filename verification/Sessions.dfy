/**
 The ledger of platform sessions the workbench created: classifying them, cleaning them up, and the
 capacity check before a password login.
 */
module Sessions {
  import opened Prelude
  import State
  import opened Vault
  import opened Ranking

  /** One session as the platform lists it. */
  datatype Live = Live(sid: string, current: bool, lastActive: int)

  // ----- the maps the code builds in loops -----

  predicate Owned(m: Managed) {
    m.workbench && m.remote != ""
  }

  /** The last owned entry of each session identifier. */
  function LedgerOf(managed: seq<Managed>): map<string, Managed> {
    if managed == [] then map[]
    else
      var front := LedgerOf(managed[..|managed| - 1]);
      if Owned(Last(managed)) then front[Last(managed).remote := Last(managed)] else front
  }

  function LiveOf(sessions: seq<Live>): map<string, Live> {
    if sessions == [] then map[] else LiveOf(sessions[..|sessions| - 1])[Last(sessions).sid := Last(sessions)]
  }

  /** Every key belongs to an owned entry of the list, and every owned entry has its key. */
  lemma {:induction false} LedgerHoldsOwned(managed: seq<Managed>)
    ensures forall sid :: sid in LedgerOf(managed) ==>
              LedgerOf(managed)[sid] in managed && Owned(LedgerOf(managed)[sid]) && LedgerOf(managed)[sid].remote == sid
    ensures forall m :: m in managed && Owned(m) ==> m.remote in LedgerOf(managed)
  {
    if managed != [] {
      LedgerHoldsOwned(managed[..|managed| - 1]);
      assert managed == managed[..|managed| - 1] + [Last(managed)];
    }
  }

  lemma {:induction false} LiveHoldsListed(sessions: seq<Live>)
    ensures forall sid :: sid in LiveOf(sessions) ==>
              LiveOf(sessions)[sid] in sessions && LiveOf(sessions)[sid].sid == sid
    ensures forall s :: s in sessions ==> s.sid in LiveOf(sessions)
  {
    if sessions != [] {
      LiveHoldsListed(sessions[..|sessions| - 1]);
      assert sessions == sessions[..|sessions| - 1] + [Last(sessions)];
    }
  }

  method BuildLedger(managed: seq<Managed>) returns (ledger: map<string, Managed>)
    ensures ledger == LedgerOf(managed)
  {
    ledger := map[];
    for i := 0 to |managed|
      invariant ledger == LedgerOf(managed[..i])
    {
      assert managed[..i + 1][..i] == managed[..i];
      if Owned(managed[i]) {
        ledger := ledger[managed[i].remote := managed[i]];
      }
    }
    assert managed[..|managed|] == managed;
  }

  method BuildLive(sessions: seq<Live>) returns (live: map<string, Live>)
    ensures live == LiveOf(sessions)
  {
    live := map[];
    for i := 0 to |sessions|
      invariant live == LiveOf(sessions[..i])
    {
      assert sessions[..i + 1][..i] == sessions[..i];
      live := live[sessions[i].sid := sessions[i]];
    }
    assert sessions[..|sessions|] == sessions;
  }

  // ----- sorting, with every tie-break possible -----

  predicate NewestFirst(s: seq<Aged>) {
    forall i, j :: 0 <= i < j < |s| ==> s[i].seen >= s[j].seen
  }

  lemma {:induction false} NewestExists(s: seq<Aged>)
    requires s != []
    ensures exists i :: IsNewest(s, i)
  {
    if |s| == 1 {
      assert IsNewest(s, 0);
    } else {
      NewestExists(s[1..]);
      var i :| IsNewest(s[1..], i);
      assert IsNewest(s, if s[0].seen > s[1..][i].seen then 0 else i + 1);
    }
  }

  predicate IsNewest(s: seq<Aged>, i: int) {
    0 <= i < |s| && forall j :: 0 <= j < |s| ==> s[j].seen <= s[i].seen
  }

  function TakeOut(s: seq<Aged>, i: nat): seq<Aged>
    requires i < |s|
  {
    s[..i] + s[i + 1..]
  }

  lemma TakenOut(s: seq<Aged>, i: nat)
    requires i < |s|
    ensures multiset{s[i]} + multiset(TakeOut(s, i)) == multiset(s)
    ensures forall x :: x in TakeOut(s, i) ==> x in s
  {
    assert s == s[..i] + [s[i]] + s[i + 1..];
  }

  /** Any order an unstable sort may produce: the next element is some newest of the rest. */
  method SortNewestFirst(pool: seq<Aged>) returns (sorted: seq<Aged>)
    ensures NewestFirst(sorted) && multiset(sorted) == multiset(pool)
  {
    sorted := [];
    var rest := pool;
    while rest != []
      invariant NewestFirst(sorted) && multiset(sorted) + multiset(rest) == multiset(pool)
      invariant forall i, x :: 0 <= i < |sorted| && x in rest ==> sorted[i].seen >= x.seen
      decreases |rest|
    {
      NewestExists(rest);
      var i :| IsNewest(rest, i);
      TakenOut(rest, i);
      sorted := sorted + [rest[i]];
      rest := TakeOut(rest, i);
    }
  }

  // ----- the in-place compaction of the ledger list -----

  method Compact(a: array<Managed>, keep: Managed -> bool) returns (n: nat)
    modifies a
    ensures n <= a.Length && a[..n] == State.Filter(old(a[..]), keep)
  {
    ghost var before := a[..];
    n := 0;
    for i := 0 to a.Length
      invariant n <= i
      invariant forall j :: i <= j < a.Length ==> a[j] == before[j]
      invariant a[..n] == State.Filter(before[..i], keep)
    {
      State.FilterSnoc(before, i, keep);
      ghost var kept := a[..n];
      var m := a[i];
      if keep(m) {
        a[n] := m;
        n := n + 1;
        assert a[..n] == kept + [m];
      } else {
        assert a[..n] == kept + [];
      }
    }
    assert before[..a.Length] == before;
  }

  // ----- what a cleanup may touch -----

  /** Live, owned, not pinned, and not the session in use. */
  predicate Disposable(ledger: map<string, Managed>, live: map<string, Live>, current: string, sid: string) {
    sid in ledger && sid in live && !live[sid].current && sid != current && !ledger[sid].pinned
  }

  ghost function DisposableSids(ledger: map<string, Managed>, live: map<string, Live>, current: string): set<string> {
    set sid | sid in ledger && Disposable(ledger, live, current, sid)
  }

  ghost function LastSeen(ledger: map<string, Managed>): Rank {
    map sid | sid in ledger :: ledger[sid].lastSeen
  }

  ghost function PoolOf(ledger: map<string, Managed>, live: map<string, Live>, current: string): set<Aged> {
    AgedSet(DisposableSids(ledger, live, current), LastSeen(ledger))
  }

  function Sids(s: seq<Aged>): (r: seq<string>) {
    seq(|s|, i requires 0 <= i < |s| => s[i].sid)
  }

  lemma PoolIs(ledger: map<string, Managed>, live: map<string, Live>, current: string)
    ensures PoolOf(ledger, live, current) ==
            set sid | sid in ledger && Disposable(ledger, live, current, sid) :: Aged(sid, ledger[sid].lastSeen)
  {
    var rank := LastSeen(ledger);
    forall sid | sid in ledger ensures rank[sid] == ledger[sid].lastSeen {}
  }

  /** The pool is split into min(limit, pool) spares and the sessions to revoke, none of which is newer than a spare. */
  ghost predicate CleanSplit(managed: seq<Managed>, listed: seq<Live>, current: string, limit: nat,
                             spared: seq<Aged>, tried: seq<Aged>) {
    SplitOf(multiset(PoolOf(LedgerOf(managed), LiveOf(listed), current)), limit, spared, tried)
  }

  /** What survives in the ledger: other origins, and workbench sessions still live and not revoked. */
  predicate Survives(live: map<string, Live>, revoked: seq<string>, m: Managed) {
    m.workbench ==> m.remote != "" && m.remote in live && m.remote !in revoked
  }

  function Surviving(live: map<string, Live>, revoked: seq<string>): Managed -> bool {
    (m: Managed) => Survives(live, revoked, m)
  }

  /** The pool in whatever order the map iteration gives, and the ledger without the sessions that are gone. */
  method CollectPool(ledger: map<string, Managed>, live: map<string, Live>, current: string)
      returns (alive: map<string, Managed>, pool: seq<Aged>)
    ensures alive == map sid | sid in ledger && sid in live :: ledger[sid]
    ensures multiset(pool) == multiset(PoolOf(ledger, live, current))
  {
    alive, pool := ledger, [];
    var rest := ledger.Keys;
    ghost var chosen: set<Aged> := {};
    while rest != {}
      invariant rest <= ledger.Keys
      invariant alive == map sid | sid in ledger && (sid in rest || sid in live) :: ledger[sid]
      invariant chosen == set sid | sid in ledger && sid !in rest && Disposable(ledger, live, current, sid) ::
                            Aged(sid, ledger[sid].lastSeen)
      invariant multiset(pool) == multiset(chosen)
      decreases rest
    {
      var sid :| sid in rest;
      rest := rest - {sid};
      if sid !in live {
        alive := alive - {sid};
      } else if !live[sid].current && sid != current && !ledger[sid].pinned {
        var entry := Aged(sid, ledger[sid].lastSeen);
        pool := pool + [entry];
        assert entry !in chosen;
        chosen := chosen + {entry};
      }
    }
    PoolIs(ledger, live, current);
  }

  lemma SplitSorted(managed: seq<Managed>, listed: seq<Live>, current: string, limit: nat, sorted: seq<Aged>)
    requires NewestFirst(sorted) && multiset(sorted) == multiset(PoolOf(LedgerOf(managed), LiveOf(listed), current))
    ensures var keep := Min(limit, |sorted|);
            CleanSplit(managed, listed, current, limit, sorted[..keep], sorted[keep..])
  {
    var keep := Min(limit, |sorted|);
    var pool := PoolOf(LedgerOf(managed), LiveOf(listed), current);
    assert sorted == sorted[..keep] + sorted[keep..];
    assert |sorted| == |multiset(sorted)| == |multiset(pool)| == |pool|;
  }

  /** Filters that agree on the entries of the list give the same result. */
  lemma {:induction false} SameFilter(s: seq<Managed>, p: Managed -> bool, q: Managed -> bool)
    requires forall m :: m in s ==> p(m) == q(m)
    ensures State.Filter(s, p) == State.Filter(s, q)
  {
    if s != [] {
      SameFilter(s[..|s| - 1], p, q);
    }
  }

  /** Only live, owned, unpinned sessions other than the one in use are ever tried, each once. */
  lemma TriedAreDisposable(managed: seq<Managed>, listed: seq<Live>, current: string, limit: nat, spared: seq<Aged>,
                           tried: seq<Aged>, i: nat)
    requires CleanSplit(managed, listed, current, limit, spared, tried) && i < |tried|
    ensures var sid := tried[i].sid;
            && sid != current
            && (exists m :: m in managed && m.workbench && m.remote == sid && !m.pinned)
            && (exists s :: s in listed && s.sid == sid && !s.current)
            && (forall j :: 0 <= j < |tried| && j != i ==> tried[j].sid != sid)
            && (forall a :: a in spared ==> a.sid != sid)
  {
    var pool := PoolOf(LedgerOf(managed), LiveOf(listed), current);
    LedgerHoldsOwned(managed);
    LiveHoldsListed(listed);
    assert multiset(pool)[tried[i]] == 1 by {
      assert tried[i] in multiset(spared) + multiset(tried);
    }
    forall j | 0 <= j < |tried| && j != i ensures tried[j].sid != tried[i].sid {
      assert tried[j] in multiset(pool);
      if tried[j] == tried[i] {
        TwiceInMultiset(tried, i, j);
      }
    }
    forall a | a in spared ensures a.sid != tried[i].sid {
      assert a in multiset(pool);
    }
  }

  lemma TwiceInMultiset<T>(s: seq<T>, i: nat, j: nat)
    requires i < |s| && j < |s| && i != j && s[i] == s[j]
    ensures multiset(s)[s[i]] >= 2
  {
    var lo, hi := if i < j then i else j, if i < j then j else i;
    assert s == s[..lo] + [s[lo]] + s[lo + 1..hi] + [s[hi]] + s[hi + 1..];
  }

  // ----- the preview, and how its count compares with a cleanup -----

  /** The preview's pool: it ranks by the platform's activity time and trusts the platform's current flag alone. */
  function CandidatePool(ledger: map<string, Managed>, sessions: seq<Live>): seq<Aged> {
    if sessions == [] then []
    else
      var s := Last(sessions);
      CandidatePool(ledger, sessions[..|sessions| - 1]) +
      if Candidate(ledger, s) then [Aged(s.sid, s.lastActive)] else []
  }

  predicate Candidate(ledger: map<string, Managed>, s: Live) {
    s.sid in ledger && !s.current && !ledger[s.sid].pinned
  }

  ghost predicate PreviewSplit(managed: seq<Managed>, sessions: seq<Live>, limit: nat, kept: seq<Aged>,
                               chosen: seq<Aged>) {
    SplitOf(multiset(CandidatePool(LedgerOf(managed), sessions)), limit, kept, chosen)
  }

  lemma LedgerSnoc(front: seq<Managed>, m: Managed)
    ensures LedgerOf(front + [m]) == if Owned(m) then LedgerOf(front)[m.remote := m] else LedgerOf(front)
  {
    assert (front + [m])[..|front|] == front;
  }

  lemma LiveSnoc(front: seq<Live>, s: Live)
    ensures LiveOf(front + [s]) == LiveOf(front)[s.sid := s]
  {
    assert (front + [s])[..|front|] == front;
  }

  lemma CandidateSnoc(ledger: map<string, Managed>, front: seq<Live>, s: Live)
    ensures CandidatePool(ledger, front + [s]) ==
            CandidatePool(ledger, front) + if Candidate(ledger, s) then [Aged(s.sid, s.lastActive)] else []
  {
    assert (front + [s])[..|front|] == front;
  }

  /** What a preview reports: how many sessions there are, and how many a cleanup would free. */
  datatype Listing = Listing(total: nat, candidates: nat)

  function OtherThan(sid: string): Managed -> bool {
    (m: Managed) => m.remote != sid
  }

  function StillLive(live: map<string, Live>): Managed -> bool {
    (m: Managed) => m.remote in live
  }

  /** Nothing of the bundle but its ledger differs. */
  ghost predicate SameSession(before: Option<Saved>, after: Option<Saved>) {
    match before
    case None => after.None?
    case Some(s) => after.Some? && after.value == s.(managed := after.value.managed)
  }

  /** A filter drops something exactly when it rejects something. */
  lemma {:induction false} FullFilter(s: seq<Managed>, keep: Managed -> bool)
    ensures |State.Filter(s, keep)| == |s| <==> forall m :: m in s ==> keep(m)
    ensures |State.Filter(s, keep)| == |s| ==> State.Filter(s, keep) == s
  {
    if s != [] {
      FullFilter(s[..|s| - 1], keep);
      assert s == s[..|s| - 1] + [Last(s)];
    }
  }

  method BuildCandidates(ledger: map<string, Managed>, sessions: seq<Live>) returns (pool: seq<Aged>)
    ensures pool == CandidatePool(ledger, sessions)
  {
    pool := [];
    for i := 0 to |sessions|
      invariant pool == CandidatePool(ledger, sessions[..i])
    {
      CandidateSnoc(ledger, sessions[..i], sessions[i]);
      assert sessions[..i + 1] == sessions[..i] + [sessions[i]];
      var s := sessions[i];
      if s.sid in ledger && !s.current && !ledger[s.sid].pinned {
        pool := pool + [Aged(s.sid, s.lastActive)];
      }
    }
    assert sessions[..|sessions|] == sessions;
  }

  lemma SplitPreview(pool: seq<Aged>, sorted: seq<Aged>, limit: nat)
    requires NewestFirst(sorted) && multiset(sorted) == multiset(pool)
    ensures |sorted| == |pool|
    ensures var spare := Min(limit, |sorted|);
            && multiset(sorted[..spare]) + multiset(sorted[spare..]) == multiset(pool)
            && sorted[spare..|sorted|] == sorted[spare..]
            && forall a, b :: a in sorted[..spare] && b in sorted[spare..] ==> a.seen >= b.seen
  {
    var spare := Min(limit, |sorted|);
    assert sorted == sorted[..spare] + sorted[spare..];
    assert |multiset(sorted)| == |multiset(pool)|;
  }

  function Without(alive: map<string, Managed>, gone: seq<string>): map<string, Managed> {
    map sid | sid in alive && sid !in gone :: alive[sid]
  }

  lemma WithoutOne(alive: map<string, Managed>, gone: seq<string>, sid: string)
    ensures Without(alive, gone + [sid]) == Without(alive, gone) - {sid}
  {}

  lemma OneMore<T>(s: seq<T>, i: nat)
    requires i < |s|
    ensures multiset(s[..i + 1]) == multiset(s[..i]) + multiset{s[i]}
  {
    assert s[..i + 1] == s[..i] + [s[i]];
  }

  function Except(sid: string): Live -> bool {
    (s: Live) => s.sid != sid
  }

  /** What the platform was asked for and answered. */
  datatype Talk = Listed(sessions: seq<Live>) | Asked(sid: string, ok: bool, current: bool) | AskedOthers(ok: bool)

  /** The calls revoke exactly these sessions, in this order. */
  predicate Revocations(calls: seq<Talk>, sids: seq<string>) {
    |calls| == |sids| && forall i :: 0 <= i < |calls| ==> calls[i].Asked? && calls[i].sid == sids[i]
  }

  /** The sessions whose revocation was answered with `ok`, in order. */
  function Answered(calls: seq<Talk>, ok: bool): seq<string> {
    if calls == [] then []
    else
      var front := Answered(calls[..|calls| - 1], ok);
      if Last(calls).Asked? && Last(calls).ok == ok then front + [Last(calls).sid] else front
  }

  lemma AnsweredSnoc(calls: seq<Talk>, call: Talk, ok: bool)
    ensures Answered(calls + [call], ok) ==
            Answered(calls, ok) + if call.Asked? && call.ok == ok then [call.sid] else []
  {
    assert (calls + [call])[..|calls|] == calls;
  }

  /** A look at the list answers no revocation. */
  lemma {:induction false} AnsweredAfterList(sessions: seq<Live>, calls: seq<Talk>, ok: bool)
    ensures Answered([Listed(sessions)] + calls, ok) == Answered(calls, ok)
  {
    var all := [Listed(sessions)] + calls;
    if calls == [] {
      assert all[..|all| - 1] == [];
    } else {
      AnsweredAfterList(sessions, calls[..|calls| - 1], ok);
      assert all[..|all| - 1] == [Listed(sessions)] + calls[..|calls| - 1];
    }
  }

  /** One look at the platform's list, then the revocations the split of the pool calls for. */
  ghost predicate CleanedUp(s: Saved, current: string, limit: nat, listed: seq<Live>, spared: seq<Aged>,
                            tried: seq<Aged>, calls: seq<Talk>) {
    && CleanSplit(s.managed, listed, current, limit, spared, tried)
    && calls != [] && calls[0] == Listed(listed) && Revocations(calls[1..], Sids(tried))
  }

  class Manager {
    const vault: Vault
    const limit: nat
    const sidOf: Token -> string  // the session identifier inside an access token, "" when there is none
    ghost var troubles: nat       // client set-ups and platform requests that failed so far
    ghost var talk: seq<Talk>     // what the platform was asked for and answered so far
    var online: seq<Live>         // the platform's own list, which other devices change as well

    constructor (vault: Vault, durableLimit: int, sidOf: Token -> string)
      ensures this.vault == vault && this.sidOf == sidOf && limit >= 1 && (durableLimit > 0 ==> limit == durableLimit)
    {
      this.vault, limit, this.sidOf, troubles := vault, if durableLimit <= 0 then 1 else durableLimit, sidOf, 0;
      online, talk := *, [];
    }

    ghost function Faults(): nat
      reads this, vault
    {
      troubles + vault.faults
    }

    /** One request to the platform that may fail. */
    method Reach() returns (ok: bool)
      modifies this`troubles
      ensures troubles == old(troubles) + if ok then 0 else 1
    {
      ok := *;
      if !ok {
        troubles := troubles + 1;
      }
    }

    /** The platform's list as it is by then. */
    method ListSessions() returns (r: Result<seq<Live>>)
      modifies this`troubles, this`talk, this`online
      ensures troubles == old(troubles) + if r.Ok? then 0 else 1
      ensures r.Ok? ==> r.value == online && talk == old(talk) + [Listed(online)]
      ensures r.Err? ==> talk == old(talk)
    {
      online := *;
      var ok := Reach();
      if !ok {
        return Err;
      }
      talk := talk + [Listed(online)];
      return Ok(online);
    }

    /** A revocation that succeeds ends the session on the platform. */
    method Revoke(sid: string) returns (ok: bool, current: bool)
      modifies this`troubles, this`talk, this`online
      ensures troubles == old(troubles) + if ok then 0 else 1
      ensures online == if ok then State.Filter(old(online), Except(sid)) else old(online)
      ensures ok ==> forall s :: s in online <==> s in old(online) && s.sid != sid
      ensures talk == old(talk) + [Asked(sid, ok, current)]
    {
      ok := Reach();
      current := *;
      if ok {
        State.FilterMembers(online, Except(sid));
        online := State.Filter(online, Except(sid));
      }
      talk := talk + [Asked(sid, ok, current)];
    }

    /** The platform ends every session but the one that asks. */
    method RevokeOthers() returns (ok: bool)
      modifies this`troubles, this`talk
      ensures troubles == old(troubles) + if ok then 0 else 1
      ensures talk == old(talk) + [AskedOthers(ok)]
    {
      ok := Reach();
      talk := talk + [AskedOthers(ok)];
    }

    /** Revokes one after the other; a failing revocation does not stop the rest. */
    method RevokeEach(tried: seq<string>, alive: map<string, Managed>)
        returns (revoked: seq<string>, failed: seq<string>, left: map<string, Managed>, ghost calls: seq<Talk>)
      modifies this`troubles, this`talk, this`online
      ensures troubles >= old(troubles) && (failed != [] ==> troubles > old(troubles))
      ensures talk == old(talk) + calls && Revocations(calls, tried)
      ensures revoked == Answered(calls, true) && failed == Answered(calls, false)
      ensures left == Without(alive, revoked)
    {
      revoked, failed, left, calls := [], [], alive, [];
      for i := 0 to |tried|
        invariant troubles >= old(troubles) && (failed != [] ==> troubles > old(troubles))
        invariant talk == old(talk) + calls && Revocations(calls, tried[..i])
        invariant revoked == Answered(calls, true) && failed == Answered(calls, false)
        invariant left == Without(alive, revoked)
      {
        var ok, current := Revoke(tried[i]);
        AnsweredSnoc(calls, Last(talk), true);
        AnsweredSnoc(calls, Last(talk), false);
        calls := calls + [Last(talk)];
        if ok {
          WithoutOne(alive, revoked, tried[i]);
          revoked := revoked + [tried[i]];
          left := left - {tried[i]};
        } else {
          failed := failed + [tried[i]];
        }
      }
      assert tried[..|tried|] == tried;
    }

    /**
     Revokes every disposable session beyond the durable budget. Ghost results: the platform's list, the
     sessions spared, the sessions it tried to revoke, and what was asked and answered.
     */
    method Cleanup()
        returns (ok: bool, revoked: seq<string>, failed: seq<string>, ghost listed: seq<Live>, ghost spared: seq<Aged>,
                 ghost tried: seq<Aged>, ghost calls: seq<Talk>)
      modifies this`troubles, this`talk, this`online, vault
      ensures talk == old(talk) + calls
      ensures revoked == Answered(calls, true) && failed == Answered(calls, false)
      ensures !ok ==> Faults() > old(Faults()) && vault.saved == old(vault.saved)
      ensures Faults() >= old(Faults()) && (failed != [] ==> Faults() > old(Faults()))
      ensures old(vault.saved) == None ==> calls == []
      ensures old(vault.saved).Some? && (ok || calls != []) ==>
                var s := old(vault.saved).value; CleanedUp(s, sidOf(s.parent), limit, listed, spared, tried, calls)
      ensures ok && revoked == [] ==> vault.saved == old(vault.saved)
      ensures ok && revoked != [] ==>
                && old(vault.saved).Some?
                && var s := old(vault.saved).value;
                   vault.saved == Some(s.(managed := State.Filter(s.managed, Surviving(LiveOf(listed), revoked))))
    {
      revoked, failed, listed, spared, tried, calls := [], [], [], [], [], [];
      var loaded := vault.Load();
      if loaded.Err? || loaded.value.None? {
        ok := loaded.Ok?;
        return;
      }
      var s := loaded.value.value;
      ok := Reach();
      if !ok {
        return;
      }
      var sessions := ListSessions();
      if sessions.Err? {
        ok := false;
        return;
      }
      listed := sessions.value;
      var kept;
      revoked, failed, kept, spared, tried, calls := CleanListed(s, sessions.value);
      AnsweredAfterList(listed, calls, true);
      AnsweredAfterList(listed, calls, false);
      calls := [Listed(listed)] + calls;
      if revoked != [] {
        ok := vault.Save(s.(managed := kept));
      }
    }

    /** The cleanup proper, with the platform's list at hand. */
    method CleanListed(s: Saved, sessions: seq<Live>)
        returns (revoked: seq<string>, failed: seq<string>, kept: seq<Managed>, ghost spared: seq<Aged>,
                 ghost tried: seq<Aged>, ghost calls: seq<Talk>)
      modifies this`troubles, this`talk, this`online
      ensures troubles >= old(troubles) && (failed != [] ==> troubles > old(troubles))
      ensures CleanSplit(s.managed, sessions, sidOf(s.parent), limit, spared, tried)
      ensures talk == old(talk) + calls && Revocations(calls, Sids(tried))
      ensures revoked == Answered(calls, true) && failed == Answered(calls, false)
      ensures kept == State.Filter(s.managed, Surviving(LiveOf(sessions), revoked))
    {
      var current := sidOf(s.parent);
      var live := BuildLive(sessions);
      var ledger := BuildLedger(s.managed);
      var alive, pool := CollectPool(ledger, live, current);
      var sorted := SortNewestFirst(pool);
      var keep := if limit > |sorted| then |sorted| else limit;
      spared, tried := sorted[..keep], sorted[keep..];
      SplitSorted(s.managed, sessions, current, limit, sorted);
      var left;
      revoked, failed, left, calls := RevokeEach(Sids(sorted[keep..]), alive);
      kept := PruneLedger(s.managed, left, live, revoked);
    }

    /** Compacts the ledger list over its own array. */
    method PruneLedger(managed: seq<Managed>, left: map<string, Managed>, live: map<string, Live>,
                       ghost revoked: seq<string>)
        returns (kept: seq<Managed>)
      requires left.Keys == set sid | sid in LedgerOf(managed) && sid in live && sid !in revoked
      ensures kept == State.Filter(managed, Surviving(live, revoked))
    {
      var a := new Managed[|managed|](i requires 0 <= i < |managed| => managed[i]);
      assert a[..] == managed;
      var keep := (m: Managed) => m.remote in left || !m.workbench;
      var n := Compact(a, keep);
      kept := a[..n];
      LedgerHoldsOwned(managed);
      SameFilter(managed, keep, Surviving(live, revoked));
    }

    /** The announced candidates; ghost results: the pool split they are based on. */
    method Classify(managed: seq<Managed>, sessions: seq<Live>)
        returns (candidates: seq<string>, total: nat, ghost kept: seq<Aged>, ghost chosen: seq<Aged>)
      ensures PreviewSplit(managed, sessions, limit, kept, chosen) && candidates == Sids(chosen) && total == |sessions|
    {
      var ledger := BuildLedger(managed);
      var pool := BuildCandidates(ledger, sessions);
      var sorted := SortNewestFirst(pool);
      SplitPreview(pool, sorted, limit);
      candidates := Beyond(sorted);
      total := |sessions|;
      kept, chosen := sorted[..Min(limit, |sorted|)], sorted[Min(limit, |sorted|)..];
    }

    /** The sids after the first `limit` entries. */
    method Beyond(sorted: seq<Aged>) returns (sids: seq<string>)
      ensures sids == Sids(sorted[Min(limit, |sorted|)..])
    {
      sids := [];
      var spare := 0;
      for i := 0 to |sorted|
        invariant spare == Min(limit, i)
        invariant sids == Sids(sorted[spare..i])
      {
        if spare < limit {
          spare := spare + 1;
        } else {
          assert sorted[spare..i + 1] == sorted[spare..i] + [sorted[i]];
          sids := sids + [sorted[i].sid];
        }
      }
      assert sorted[spare..|sorted|] == sorted[spare..];
    }

    /** How many sessions the platform lists, and how many of them a cleanup is announced to revoke. */
    method Preview() returns (r: Result<Listing>)
      modifies this`troubles, this`talk, this`online, vault`faults
      ensures r.Err? ==> (Faults() > old(Faults()) || vault.saved == None) && talk == old(talk)
      ensures Faults() >= old(Faults())
      ensures r.Ok? ==>
                && vault.saved.Some? && talk == old(talk) + [Listed(online)] && r.value.total == |online|
                && var pool := |CandidatePool(LedgerOf(vault.saved.value.managed), online)|;
                   r.value.candidates == if pool > limit then pool - limit else 0
    {
      var loaded := vault.Load();
      if loaded.Err? || loaded.value.None? {
        return Err;
      }
      var ok := Reach();
      if !ok {
        return Err;
      }
      var sessions := ListSessions();
      if sessions.Err? {
        return Err;
      }
      ghost var kept, chosen;
      var candidates, total;
      candidates, total, kept, chosen := Classify(loaded.value.value.managed, sessions.value);
      assert |CandidatePool(LedgerOf(loaded.value.value.managed), online)| == |kept| + |chosen| by {
        assert |multiset(kept) + multiset(chosen)| == |kept| + |chosen|;
      }
      return Ok(Listing(total, |candidates|));
    }

    /** The user revokes one session, whatever its origin. */
    method RevokeOne(sid: string) returns (ok: bool, current: bool, updated: bool)
      modifies this`troubles, this`talk, this`online, vault
      ensures !ok ==> vault.saved == old(vault.saved) && (Faults() > old(Faults()) || old(vault.saved) == None)
      ensures ok ==>
                && old(vault.saved).Some? && old(talk) < talk && Revocations(talk[|old(talk)|..], [sid])
                && Last(talk).ok && (current <==> Last(talk).current || sidOf(old(vault.saved).value.parent) == sid)
      ensures ok ==> var s := old(vault.saved).value;
                     && (updated <==> exists m :: m in s.managed && m.remote == sid)
                     && vault.saved == Some(s.(managed := State.Filter(s.managed, OtherThan(sid))))
      ensures ok ==> forall m :: m in vault.saved.value.managed <==>
                m in old(vault.saved).value.managed && m.remote != sid
    {
      ok, current, updated := false, false, false;
      var loaded := vault.Load();
      if loaded.Err? || loaded.value.None? {
        return;
      }
      var s := loaded.value.value;
      ok := Reach();
      if !ok {
        return;
      }
      var flagged;
      ok, flagged := Revoke(sid);
      if !ok {
        return;
      }
      current := flagged || sidOf(s.parent) == sid;
      var a := new Managed[|s.managed|](i requires 0 <= i < |s.managed| => s.managed[i]);
      assert a[..] == s.managed;
      var n := Compact(a, OtherThan(sid));
      FullFilter(s.managed, OtherThan(sid));
      State.FilterMembers(s.managed, OtherThan(sid));
      if n < |s.managed| {
        ok := vault.Save(s.(managed := a[..n]));
        updated := ok;
      } else {
        assert s.(managed := State.Filter(s.managed, OtherThan(sid))) == s;
      }
    }

    /** Revokes every other session; the ledger keeps what the refreshed list still shows. */
    method RevokeAllOthers() returns (ok: bool, ghost listed: seq<Live>)
      modifies this`troubles, this`talk, this`online, vault
      ensures !ok ==> vault.saved == old(vault.saved) && (Faults() > old(Faults()) || old(vault.saved) == None)
      ensures ok ==> old(vault.saved).Some? && talk == old(talk) + [AskedOthers(true), Listed(listed)]
      ensures ok ==> var s := old(vault.saved).value;
                     vault.saved == Some(s.(managed := State.Filter(s.managed, StillLive(LiveOf(listed)))))
      ensures ok ==> forall m :: m in vault.saved.value.managed <==>
                m in old(vault.saved).value.managed && exists l :: l in listed && l.sid == m.remote
    {
      ok, listed := false, [];
      var loaded := vault.Load();
      if loaded.Err? || loaded.value.None? {
        return;
      }
      var s := loaded.value.value;
      ok := Reach();
      if !ok {
        return;
      }
      ok := RevokeOthers();
      if !ok {
        return;
      }
      var sessions := ListSessions();
      if sessions.Err? {
        ok := false;
        return;
      }
      listed := sessions.value;
      var live := BuildLive(sessions.value);
      var a := new Managed[|s.managed|](i requires 0 <= i < |s.managed| => s.managed[i]);
      assert a[..] == s.managed;
      var n := Compact(a, StillLive(live));
      State.FilterMembers(s.managed, StillLive(live));
      LiveHoldsListed(listed);
      ok := vault.Save(s.(managed := a[..n]));
    }
  }

  /** A complete cleanup of the ledger s holds. */
  ghost predicate IsCleanup(s: Saved, current: string, limit: nat, calls: seq<Talk>) {
    exists listed, spared, tried :: CleanedUp(s, current, limit, listed, spared, tried, calls)
  }

  ghost predicate IsLook(calls: seq<Talk>, l: Listing) {
    |calls| == 1 && calls[0].Listed? && |calls[0].sessions| == l.total
  }

  /**
   The previews are of lists the platform gave, and between two of them lies a complete cleanup: `first`,
   `cleanup` and `second` are what the platform was asked in turn.
   */
  ghost predicate Vetted(saved: Option<Saved>, current: string, limit: nat, first: seq<Talk>, cleanup: seq<Talk>,
                         second: seq<Talk>, seen: seq<Listing>) {
    && (if seen == [] then first == [] else IsLook(first, seen[0]))
    && (|seen| < 2 ==> second == [])
    && (|seen| == 2 ==> saved.Some? && IsCleanup(saved.value, current, limit, cleanup) && IsLook(second, seen[1]))
  }

  /** The budget check that runs right before a password login. */
  class CapacityGuard {
    const manager: Manager
    const limit: int
    const margin: int

    constructor (manager: Manager, limit: int, margin: int)
      ensures this.manager == manager && this.limit == limit && this.margin == margin
    {
      this.manager, this.limit, this.margin := manager, limit, margin;
    }

    /**
     Allows the login unless the last total it could learn is at or above the threshold; before it blocks
     it tries one cleanup. `seen` lists the previews it got.
     */
    method BeforeLogin()
        returns (allowed: bool, ghost seen: seq<Listing>, ghost first: seq<Talk>, ghost cleanup: seq<Talk>,
                 ghost second: seq<Talk>)
      modifies manager`troubles, manager`talk, manager`online, manager.vault
      ensures allowed <==> seen == [] || Last(seen).total < limit - margin
      ensures |seen| <= 2 && (|seen| == 2 ==> seen[0].total >= limit - margin && seen[0].candidates > 0)
      ensures manager.Faults() == old(manager.Faults()) && !allowed ==> |seen| == 2 || seen[0].candidates == 0
      ensures manager.Faults() == old(manager.Faults()) && seen == [] ==> old(manager.vault.saved) == None
      ensures SameSession(old(manager.vault.saved), manager.vault.saved)
      ensures manager.Faults() >= old(manager.Faults())
      ensures allowed && seen != [] ==> |manager.online| == Last(seen).total
      ensures manager.talk == old(manager.talk) + first + cleanup + second
      ensures var saved := old(manager.vault.saved);
              Vetted(saved, if saved.Some? then manager.sidOf(saved.value.parent) else "", manager.limit,
                     first, cleanup, second, seen)
    {
      seen, first, cleanup, second := [], [], [], [];
      var preview := manager.Preview();
      if preview.Err? {
        assert manager.talk == old(manager.talk) + [] + [] + [];
        return true, [], [], [], [];
      }
      seen, first := [preview.value], [Listed(manager.online)];
      var threshold := limit - margin;
      assert manager.talk == old(manager.talk) + first + [] + [];
      if preview.value.total < threshold {
        return true, seen, first, [], [];
      }
      allowed := false;
      if preview.value.candidates > 0 {
        var again;
        again, cleanup, second := CleanAndLook();
        if again.Some? {
          seen := seen + [again.value];
          allowed := again.value.total < threshold;
        }
      }
    }

    /** A cleanup and the preview after it; None when either failed. */
    method CleanAndLook() returns (r: Option<Listing>, ghost cleanup: seq<Talk>, ghost second: seq<Talk>)
      modifies manager`troubles, manager`talk, manager`online, manager.vault
      ensures manager.talk == old(manager.talk) + cleanup + second && manager.Faults() >= old(manager.Faults())
      ensures SameSession(old(manager.vault.saved), manager.vault.saved)
      ensures r.None? ==> second == [] && (manager.Faults() > old(manager.Faults()) || old(manager.vault.saved) == None)
      ensures r.Some? ==>
                && old(manager.vault.saved).Some? && IsLook(second, r.value) && |manager.online| == r.value.total
                && var s := old(manager.vault.saved).value;
                   IsCleanup(s, manager.sidOf(s.parent), manager.limit, cleanup)
    {
      ghost var listed, spared, tried;
      var cleaned, revoked, failed;
      second := [];
      cleaned, revoked, failed, listed, spared, tried, cleanup := manager.Cleanup();
      if !cleaned {
        assert manager.talk == old(manager.talk) + cleanup + [];
        return None, cleanup, [];
      }
      var preview := manager.Preview();
      if preview.Err? {
        assert manager.talk == old(manager.talk) + cleanup + [];
        return None, cleanup, [];
      }
      second := [Listed(manager.online)];
      return Some(preview.value), cleanup, second;
    }
  }
}
