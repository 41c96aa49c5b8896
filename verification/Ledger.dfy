/** Recording the session a fresh token belongs to, in a ledger bounded to the newest entries and the pinned ones. */
module Ledger {
  import opened Prelude
  import State
  import opened Vault

  const MAX_LEDGER: nat := 24

  /** The first entry of the session is seen now; without one, a workbench entry is appended. */
  function Touched(managed: seq<Managed>, sid: string, now: int): seq<Managed> {
    if managed == [] then [Managed(sid, true, now, false)]
    else if managed[0].remote == sid then [managed[0].(lastSeen := now)] + managed[1..]
    else [managed[0]] + Touched(managed[1..], sid, now)
  }

  /** Afterwards the session has an entry seen now, and the entries of other sessions are all still there. */
  lemma {:induction false} TouchedIsListed(managed: seq<Managed>, sid: string, now: int)
    ensures |managed| <= |Touched(managed, sid, now)| <= |managed| + 1
    ensures exists m :: m in Touched(managed, sid, now) && m.remote == sid && m.lastSeen == now
    ensures forall m :: m in managed && m.remote != sid ==> m in Touched(managed, sid, now)
  {
    var touched := Touched(managed, sid, now);
    if managed == [] || managed[0].remote == sid {
      assert touched[0].remote == sid && touched[0].lastSeen == now;
    } else {
      TouchedIsListed(managed[1..], sid, now);
      var m :| m in Touched(managed[1..], sid, now) && m.remote == sid && m.lastSeen == now;
      assert m in touched;
    }
  }

  predicate NewestFirst(s: seq<Managed>) {
    forall i, j :: 0 <= i < j < |s| ==> s[i].lastSeen >= s[j].lastSeen
  }

  function SeenAt(t: int): Managed -> bool {
    (m: Managed) => m.lastSeen == t
  }

  /** A stable sort, newest first: ordered, and entries seen at one instant keep their order. */
  ghost predicate StablySorted(s: seq<Managed>, sorted: seq<Managed>) {
    NewestFirst(sorted) && forall t :: State.Filter(sorted, SeenAt(t)) == State.Filter(s, SeenAt(t))
  }

  /** Behind everything at least as new. */
  function Insert(sorted: seq<Managed>, m: Managed): (r: seq<Managed>)
    requires NewestFirst(sorted)
    ensures |r| == |sorted| + 1 && NewestFirst(r)
    ensures forall x :: x in r ==> x in sorted || x == m
  {
    if sorted == [] || Last(sorted).lastSeen >= m.lastSeen then sorted + [m]
    else
      var front := Insert(sorted[..|sorted| - 1], m);
      assert forall i :: 0 <= i < |front| ==> front[i] in front;
      front + [Last(sorted)]
  }

  function IfAt(m: Managed, t: int): seq<Managed> {
    if m.lastSeen == t then [m] else []
  }

  lemma SnocFilter(front: seq<Managed>, m: Managed, t: int)
    ensures State.Filter(front + [m], SeenAt(t)) == State.Filter(front, SeenAt(t)) + IfAt(m, t)
  {
    assert (front + [m])[..|front|] == front;
  }

  lemma Swap(f: seq<Managed>, m: Managed, n: Managed, t: int)
    requires m.lastSeen != n.lastSeen
    ensures f + IfAt(m, t) + IfAt(n, t) == f + IfAt(n, t) + IfAt(m, t)
  {}

  lemma {:induction false} InsertFilters(sorted: seq<Managed>, m: Managed, t: int)
    requires NewestFirst(sorted)
    ensures State.Filter(Insert(sorted, m), SeenAt(t)) == State.Filter(sorted, SeenAt(t)) + IfAt(m, t)
  {
    if sorted == [] || Last(sorted).lastSeen >= m.lastSeen {
      SnocFilter(sorted, m, t);
    } else {
      var front, last := sorted[..|sorted| - 1], Last(sorted);
      InsertFilters(front, m, t);
      SnocFilter(Insert(front, m), last, t);
      SnocFilter(front, last, t);
      Swap(State.Filter(front, SeenAt(t)), m, last, t);
      assert front + [last] == sorted;
    }
  }

  /** Inserting behind everything at least as new keeps the order, and the order among equals. */
  lemma InsertStably(s: seq<Managed>, sorted: seq<Managed>, m: Managed)
    requires StablySorted(s, sorted)
    ensures StablySorted(s + [m], Insert(sorted, m))
  {
    forall t ensures State.Filter(Insert(sorted, m), SeenAt(t)) == State.Filter(s + [m], SeenAt(t)) {
      SnocFilter(s, m, t);
      InsertFilters(sorted, m, t);
    }
  }

  method StableSort(s: seq<Managed>) returns (sorted: seq<Managed>)
    ensures StablySorted(s, sorted) && |sorted| == |s|
  {
    sorted := [];
    for i := 0 to |s|
      invariant StablySorted(s[..i], sorted) && |sorted| == i
    {
      InsertStably(s[..i], sorted, s[i]);
      assert s[..i + 1] == s[..i] + [s[i]];
      sorted := Insert(sorted, s[i]);
    }
    assert s[..|s|] == s;
  }

  /** The newest entries, and the pinned ones among the rest. */
  function Kept(sorted: seq<Managed>): (r: seq<Managed>)
    ensures |r| <= |sorted|
  {
    if sorted == [] then []
    else
      var front := sorted[..|sorted| - 1];
      if |front| < MAX_LEDGER || Last(sorted).pinned then Kept(front) + [Last(sorted)] else Kept(front)
  }

  lemma KeptSnoc(front: seq<Managed>, m: Managed)
    ensures Kept(front + [m]) == if |front| < MAX_LEDGER || m.pinned then Kept(front) + [m] else Kept(front)
  {
    assert (front + [m])[..|front|] == front;
  }

  lemma {:induction false} KeptStartsNewest(sorted: seq<Managed>)
    ensures if |sorted| <= MAX_LEDGER then Kept(sorted) == sorted else sorted[..MAX_LEDGER] <= Kept(sorted)
    ensures forall i :: MAX_LEDGER <= i < |Kept(sorted)| ==> Kept(sorted)[i].pinned
  {
    if sorted != [] {
      KeptStartsNewest(sorted[..|sorted| - 1]);
      assert sorted == sorted[..|sorted| - 1] + [Last(sorted)];
    }
  }

  lemma {:induction false} KeptHoldsPinned(sorted: seq<Managed>, m: Managed)
    requires m in sorted && m.pinned
    ensures m in Kept(sorted)
  {
    var front := sorted[..|sorted| - 1];
    assert sorted == front + [Last(sorted)];
    if m in front {
      KeptHoldsPinned(front, m);
    }
  }

  /**
   No pinned entry ages out, what is dropped is no newer than any of the 24 entries kept for their age, and
   whatever else is kept is pinned.
   */
  lemma KeptIsNewestAndPinned(sorted: seq<Managed>, m: Managed)
    requires NewestFirst(sorted) && m in sorted
    ensures m.pinned ==> m in Kept(sorted)
    ensures forall i :: 24 <= i < |Kept(sorted)| ==> Kept(sorted)[i].pinned
    ensures m !in Kept(sorted) ==>
              |Kept(sorted)| >= 24 && forall i :: 0 <= i < 24 ==> Kept(sorted)[i].lastSeen >= m.lastSeen
  {
    KeptStartsNewest(sorted);
    if m.pinned {
      KeptHoldsPinned(sorted, m);
    } else if |sorted| > MAX_LEDGER {
      assert forall i :: 0 <= i < MAX_LEDGER ==> Kept(sorted)[i] == sorted[..MAX_LEDGER][i];
    }
  }

  /** Records the session of a token. */
  method Track(managed: seq<Managed>, sid: string, now: int) returns (ledger: seq<Managed>)
    ensures sid == "" ==> ledger == managed
    ensures sid != "" ==> Bounded(Touched(managed, sid, now), ledger)
    ensures |managed| < 24 && sid != "" ==> ledger == Touched(managed, sid, now)
  {
    if sid == "" {
      return managed;
    }
    TouchedIsListed(managed, sid, now);
    ledger := Touch(managed, sid, now);
    if |ledger| > MAX_LEDGER {
      var sorted := StableSort(ledger);
      ledger := Trim(sorted);
    }
  }

  ghost predicate Bounded(touched: seq<Managed>, ledger: seq<Managed>) {
    if |touched| <= MAX_LEDGER then ledger == touched
    else exists sorted :: StablySorted(touched, sorted) && ledger == Kept(sorted)
  }

  /** The compaction keeps an entry by its place or by its pin. */
  method Trim(sorted: seq<Managed>) returns (ledger: seq<Managed>)
    ensures ledger == Kept(sorted)
  {
    ledger := [];
    for i := 0 to |sorted|
      invariant ledger == Kept(sorted[..i])
    {
      assert sorted[..i + 1] == sorted[..i] + [sorted[i]];
      KeptSnoc(sorted[..i], sorted[i]);
      if i < MAX_LEDGER || sorted[i].pinned {
        ledger := ledger + [sorted[i]];
      }
    }
    assert sorted[..|sorted|] == sorted;
  }

  method Touch(managed: seq<Managed>, sid: string, now: int) returns (ledger: seq<Managed>)
    ensures ledger == Touched(managed, sid, now)
  {
    for i := 0 to |managed|
      invariant Touched(managed, sid, now) == managed[..i] + Touched(managed[i..], sid, now)
    {
      assert managed[..i + 1] == managed[..i] + [managed[i]];
      if managed[i].remote == sid {
        var seen := managed[i].(lastSeen := now);
        assert managed[i := seen] == managed[..i] + [seen] + managed[i + 1..];
        return managed[i := managed[i].(lastSeen := now)];
      }
    }
    return managed + [Managed(sid, true, now, false)];
  }
}
