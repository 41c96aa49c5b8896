/** The strings that name actions, plans and their locks. */
module Keys {
  import opened Prelude

  predicate NoColon(s: string) {
    ':' !in s
  }

  /** The one shape both action keys (date, kind, account) and plan keys (date, window, account) have. */
  function Join(date: string, middle: string, account: string): string {
    date + ":" + middle + ":" + account
  }

  /** strings.Split(s, ":") */
  function Split(s: string): (parts: seq<string>)
    ensures |parts| >= 1
  {
    if s == "" then [""] else Grow(s[0], Split(s[1..]))
  }

  /** The parts of a string with one more character in front. */
  function Grow(c: char, parts: seq<string>): (r: seq<string>)
    requires |parts| >= 1
    ensures |r| == |parts| + if c == ':' then 1 else 0
  {
    if c == ':' then [""] + parts else [[c] + parts[0]] + parts[1..]
  }

  function PlanAccountID(key: string): string {
    if |Split(key)| == 3 then Split(key)[2] else ""
  }

  function PlanWindowID(key: string): string {
    if |Split(key)| == 3 then Split(key)[1] else ""
  }

  /** A string splits into one part exactly when it holds no colon. */
  lemma {:induction false} SplitsOnce(s: string)
    ensures |Split(s)| == 1 <==> NoColon(s)
    ensures NoColon(s) ==> Split(s) == [s]
  {
    if s != "" {
      SplitsOnce(s[1..]);
      assert s == [s[0]] + s[1..];
    }
  }

  lemma GrowConcat(c: char, p: seq<string>, q: seq<string>)
    requires |p| >= 1
    ensures Grow(c, p + q) == Grow(c, p) + q
  {
    assert (p + q)[1..] == p[1..] + q;
  }

  lemma {:induction false} SplitConcat(x: string, y: string)
    ensures Split(x + ":" + y) == Split(x) + Split(y)
  {
    var s := x + ":" + y;
    if x == "" {
      assert s[1..] == y;
    } else {
      SplitConcat(x[1..], y);
      assert s[0] == x[0] && s[1..] == x[1..] + ":" + y;
      GrowConcat(x[0], Split(x[1..]), Split(y));
    }
  }

  lemma SplitJoin(date: string, window: string, account: string)
    requires NoColon(date) && NoColon(account)
    ensures Split(Join(date, window, account)) == [date] + Split(window) + [account]
  {
    SplitConcat(date + ":" + window, account);
    SplitConcat(date, window);
    SplitsOnce(date);
    SplitsOnce(account);
  }

  lemma MiddleOf(date: string, middle: string, account: string)
    ensures var s := Join(date, middle, account);
            |s| >= |date| + |account| + 2 && s[|date| + 1..|s| - |account| - 1] == middle
  {}

  /** Dates and account codes hold no colon, so a key determines its parts even when the window does. */
  lemma JoinIsInjective(d1: string, m1: string, a1: string, d2: string, m2: string, a2: string)
    requires NoColon(d1) && NoColon(d2) && NoColon(a1) && NoColon(a2)
    ensures Join(d1, m1, a1) == Join(d2, m2, a2) <==> d1 == d2 && m1 == m2 && a1 == a2
  {
    if Join(d1, m1, a1) == Join(d2, m2, a2) {
      SplitJoin(d1, m1, a1);
      SplitJoin(d2, m2, a2);
      var parts := Split(Join(d1, m1, a1));
      assert parts[0] == d1 == d2 && Last(parts) == a1 == a2;
      MiddleOf(d1, m1, a1);
      MiddleOf(d1, m2, a1);
    }
  }

  /**
   Reading a plan's coordinates back from its key works exactly for windows without a colon; the
   identifiers the store generates ("sched-:..." ) read back as empty, so the log line of a postponed
   check-in of such a schedule is refused and lost.
   */
  lemma CoordinatesReadBack(date: string, window: string, account: string)
    requires NoColon(date) && NoColon(account) && account != "" && window != ""
    ensures PlanAccountID(Join(date, window, account)) == account <==> NoColon(window)
    ensures PlanWindowID(Join(date, window, account)) == window <==> NoColon(window)
    ensures !NoColon(window) ==>
              PlanAccountID(Join(date, window, account)) == PlanWindowID(Join(date, window, account)) == ""
  {
    SplitJoin(date, window, account);
    SplitsOnce(window);
  }

  lemma GeneratedIdIsLost(date: string, hex: string, account: string)
    requires NoColon(date) && NoColon(account) && account != ""
    ensures PlanAccountID(Join(date, "sched-:" + hex, account)) == ""
  {
    assert ("sched-:" + hex)[6] == ':';
    CoordinatesReadBack(date, "sched-:" + hex, account);
  }
}
