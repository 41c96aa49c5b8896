/**
 Nesting of the locks: plan, then action, then auth, then the store mutex. Plan and action locks live
 in one table, keyed by (date, middle, account), where the middle is a schedule ID or an action kind;
 Keys.JoinIsInjective shows that the strings distinguish exactly these triples.
 */
module LockOrder {
  import opened Prelude
  import opened State

  datatype Lock = Shared(date: int, middle: string, account: string) | AuthLock(account: string) | StoreMutex

  /** A plan of `date` executed while the calendar shows `today`, or an action, or account work. */
  datatype Op =
    | ExecutePlan(date: int, window: string, account: string, task: Task, today: int)
    | RunAction(today: int, kind: string, account: string)
    | AccountWork(account: string)

  const MANUAL_DRAW := "manual_draw"
  const DAILY_CLAIM := "daily_claim"

  /** The locks an operation nests, outermost first. */
  function Chain(op: Op): seq<Lock> {
    match op
    case ExecutePlan(date, window, account, Draw, today) =>
      [Shared(date, window, account), Shared(today, MANUAL_DRAW, account), AuthLock(account), StoreMutex]
    case ExecutePlan(date, window, account, Claim, today) =>
      [Shared(date, window, account), Shared(today, DAILY_CLAIM, account), AuthLock(account), StoreMutex]
    case ExecutePlan(date, window, account, AutoCheckin, today) =>
      [Shared(date, window, account), AuthLock(account), StoreMutex]
    case RunAction(today, kind, account) => [Shared(today, kind, account), AuthLock(account), StoreMutex]
    case AccountWork(account) => [AuthLock(account), StoreMutex]
  }

  /** A plan runs on its own date, or later when the run crosses midnight. */
  predicate Timely(op: Op) {
    op.ExecutePlan? ==> op.date <= op.today
  }

  // ----- threads -----

  datatype Thread = Thread(op: Op, held: set<nat>, want: Option<nat>)

  type Threads = map<nat, Thread>

  datatype Step = Start(t: nat, op: Op) | Want(t: nat, i: nat) | Take(t: nat) | Drop(t: nat, i: nat) | Stop(t: nat)

  ghost predicate Holds(s: Threads, t: nat, i: nat, l: Lock) {
    t in s && i in s[t].held && i < |Chain(s[t].op)| && Chain(s[t].op)[i] == l
  }

  ghost predicate Taken(s: Threads, l: Lock) {
    exists t, i :: Holds(s, t, i, l)
  }

  ghost predicate Enabled(ops: set<Op>, s: Threads, step: Step) {
    match step
    case Start(t, op) => t !in s && op in ops
    case Want(t, i) => t in s && s[t].want.None? && i < |Chain(s[t].op)| && forall j :: j in s[t].held ==> j < i
    case Take(t) => t in s && s[t].want.Some? && s[t].want.value < |Chain(s[t].op)|
                    && !Taken(s, Chain(s[t].op)[s[t].want.value])
    case Drop(t, i) => t in s && s[t].want.None? && i in s[t].held
    case Stop(t) => t in s && s[t].want.None? && s[t].held == {}
  }

  ghost function Apply(ops: set<Op>, s: Threads, step: Step): Threads
    requires Enabled(ops, s, step)
  {
    match step
    case Start(t, op) => s[t := Thread(op, {}, None)]
    case Want(t, i) => s[t := s[t].(want := Some(i))]
    case Take(t) => s[t := s[t].(held := s[t].held + {s[t].want.value}, want := None)]
    case Drop(t, i) => s[t := s[t].(held := s[t].held - {i})]
    case Stop(t) => s - {t}
  }

  ghost predicate Admissible(ops: set<Op>, steps: seq<Step>)
    decreases |steps|, 0
  {
    steps != [] ==>
      var front := steps[..|steps| - 1];
      Admissible(ops, front) && Enabled(ops, Run(ops, front), Last(steps))
  }

  ghost function Run(ops: set<Op>, steps: seq<Step>): Threads
    requires Admissible(ops, steps)
    decreases |steps|, 1
  {
    if steps == [] then map[] else Apply(ops, Run(ops, steps[..|steps| - 1]), Last(steps))
  }

  /** Waiting for a lock somebody holds. */
  ghost predicate Blocked(s: Threads, t: nat)
    requires t in s
  {
    s[t].want.Some? && s[t].want.value < |Chain(s[t].op)| && Taken(s, Chain(s[t].op)[s[t].want.value])
  }

  ghost predicate Stuck(s: Threads) {
    s != map[] && forall t :: t in s ==> Blocked(s, t)
  }

  // ----- the operations that can tie a knot -----

  /** The plan's own lock is the action lock its task will ask for. */
  ghost predicate SelfTangled(p: Op) {
    p.ExecutePlan? && p.date == p.today &&
    ((p.task.Draw? && p.window == "manual_draw") || (p.task.Claim? && p.window == "daily_claim"))
  }

  /** Two executors, each holding as its plan lock the action lock the other asks for. */
  ghost predicate CrossTangled(p: Op, q: Op) {
    && p.ExecutePlan? && p.task.Draw? && p.window == "daily_claim" && p.date == p.today
    && q.ExecutePlan? && q.task.Claim? && q.window == "manual_draw" && q.date == q.today
    && p.date == q.date && p.account == q.account
  }

  ghost predicate Tangled(ops: set<Op>) {
    || (exists p :: p in ops && SelfTangled(p))
    || (exists p, q :: p in ops && q in ops && CrossTangled(p, q))
  }

  // ----- an order that every untangled chain climbs -----

  datatype Rank = Rank(level: int, date: int, place: int)

  predicate Less(a: Rank, b: Rank) {
    a.level < b.level || (a.level == b.level && (a.date < b.date || (a.date == b.date && a.place < b.place)))
  }

  ghost predicate ClaimHoldsDrawKey(ops: set<Op>, date: int, account: string) {
    ExecutePlan(date, MANUAL_DRAW, account, Claim, date) in ops
  }

  ghost function RankOf(ops: set<Op>, l: Lock): Rank {
    match l
    case Shared(date, middle, account) =>
      if middle == MANUAL_DRAW then Rank(1, date, if ClaimHoldsDrawKey(ops, date, account) then 0 else 2)
      else if middle == DAILY_CLAIM then Rank(1, date, 1)
      else Rank(0, date, 0)
    case AuthLock(_) => Rank(2, 0, 0)
    case StoreMutex => Rank(3, 0, 0)
  }

  lemma ChainsClimb(ops: set<Op>, op: Op, i: nat, j: nat)
    requires !Tangled(ops) && op in ops && Timely(op) && i < j < |Chain(op)|
    ensures Less(RankOf(ops, Chain(op)[i]), RankOf(ops, Chain(op)[j]))
  {
    if && op.ExecutePlan? && op.task.Draw? && op.window == DAILY_CLAIM && op.date == op.today
       && ClaimHoldsDrawKey(ops, op.date, op.account) {
      assert CrossTangled(op, ExecutePlan(op.date, MANUAL_DRAW, op.account, Claim, op.date));
    }
    if op.ExecutePlan? {
      assert !SelfTangled(op);
    }
  }

  ghost predicate Orderly(ops: set<Op>, s: Threads) {
    forall t :: t in s ==>
      && s[t].op in ops
      && (s[t].want.Some? ==> s[t].want.value < |Chain(s[t].op)| && forall j :: j in s[t].held ==> j < s[t].want.value)
  }

  lemma {:induction false} RunIsOrderly(ops: set<Op>, steps: seq<Step>)
    requires Admissible(ops, steps)
    ensures Orderly(ops, Run(ops, steps))
  {
    if steps != [] {
      RunIsOrderly(ops, steps[..|steps| - 1]);
    }
  }

  ghost function WantedRank(ops: set<Op>, s: Threads, t: nat): Rank
    requires Waits(s, t)
  {
    RankOf(ops, Chain(s[t].op)[s[t].want.value])
  }

  /** In a finite set of waiting threads one wants a lock of greatest rank. */
  lemma {:induction false} GreatestWanted(ops: set<Op>, s: Threads, ts: set<nat>) returns (m: nat)
    requires ts != {} && forall t :: t in ts ==> Waits(s, t)
    ensures m in ts && forall t :: t in ts ==> !Less(WantedRank(ops, s, m), WantedRank(ops, s, t))
  {
    var first :| first in ts;
    var rest := ts - {first};
    m := first;
    if rest != {} {
      var r := GreatestWanted(ops, s, rest);
      if Less(WantedRank(ops, s, first), WantedRank(ops, s, r)) {
        m := r;
      }
      forall t | t in ts ensures !Less(WantedRank(ops, s, m), WantedRank(ops, s, t)) {
        assert t == first || t in rest;
      }
    } else {
      assert ts == {first};
    }
  }

  /** Whoever holds the lock a stuck thread waits for is itself waiting for one of higher rank. */
  lemma HolderWantsMore(ops: set<Op>, s: Threads, m: nat) returns (u: nat)
    requires (forall op :: op in ops ==> Timely(op)) && !Tangled(ops)
    requires Orderly(ops, s) && Stuck(s) && m in s
    ensures Waits(s, m) && Waits(s, u) && Less(WantedRank(ops, s, m), WantedRank(ops, s, u))
  {
    assert Blocked(s, m);
    var l := Chain(s[m].op)[s[m].want.value];
    var i: nat;
    u, i :| Holds(s, u, i, l);
    assert Blocked(s, u);
    ChainsClimb(ops, s[u].op, i, s[u].want.value);
  }

  ghost predicate Waits(s: Threads, t: nat) {
    t in s && s[t].want.Some? && s[t].want.value < |Chain(s[t].op)|
  }

  lemma OrderlyNeverSticks(ops: set<Op>, s: Threads)
    requires (forall op :: op in ops ==> Timely(op)) && !Tangled(ops) && Orderly(ops, s)
    ensures !Stuck(s)
  {
    if Stuck(s) {
      forall t | t in s.Keys ensures Waits(s, t) {
        assert Blocked(s, t);
      }
      var m := GreatestWanted(ops, s, s.Keys);
      var u := HolderWantsMore(ops, s, m);
    }
  }

  ghost predicate Sticks(ops: set<Op>, steps: seq<Step>) {
    Admissible(ops, steps) && Stuck(Run(ops, steps))
  }

  /** Without a tangled name some thread can always go on, or none is left. */
  lemma UntangledNeverSticks(ops: set<Op>, steps: seq<Step>)
    requires (forall op :: op in ops ==> Timely(op)) && !Tangled(ops)
    ensures !Sticks(ops, steps)
  {
    if Admissible(ops, steps) {
      RunIsOrderly(ops, steps);
      OrderlyNeverSticks(ops, Run(ops, steps));
    }
  }

  // ----- the runs that stick -----

  ghost predicate Reached(ops: set<Op>, steps: seq<Step>, s: Threads) {
    Admissible(ops, steps) && Run(ops, steps) == s
  }

  lemma Extend(ops: set<Op>, steps: seq<Step>, s: Threads, step: Step) returns (more: seq<Step>)
    requires Reached(ops, steps, s) && Enabled(ops, s, step)
    ensures Reached(ops, more, Apply(ops, s, step))
  {
    more := steps + [step];
    assert more[..|more| - 1] == steps;
  }

  /** A new thread that waits for its first lock can take it when nobody else has it. */
  lemma FirstIsFree(ops: set<Op>, s: Threads, t: nat, op: Op)
    requires t !in s && |Chain(op)| >= 2 && !Taken(s, Chain(op)[0])
    ensures var waiting := s[t := Thread(op, {}, Some(0))];
            && Enabled(ops, waiting, Take(t))
            && Apply(ops, waiting, Take(t)) == s[t := Thread(op, {0}, None)]
  {
    var waiting := s[t := Thread(op, {}, Some(0))];
    forall u: nat, i: nat ensures !Holds(waiting, u, i, Chain(op)[0]) {
      assert !Holds(s, u, i, Chain(op)[0]);
    }
    var none: set<nat> := {};
    assert none + {0} == {0};
    assert waiting[t := Thread(op, {0}, None)] == s[t := Thread(op, {0}, None)];
  }

  lemma AskFirst(ops: set<Op>, steps: seq<Step>, s: Threads, t: nat, op: Op) returns (more: seq<Step>)
    requires Reached(ops, steps, s) && t !in s && op in ops && |Chain(op)| >= 2
    ensures Reached(ops, more, s[t := Thread(op, {}, Some(0))])
  {
    more := Extend(ops, steps, s, Start(t, op));
    var started := s[t := Thread(op, {}, None)];
    more := Extend(ops, more, started, Want(t, 0));
    assert started[t := Thread(op, {}, Some(0))] == s[t := Thread(op, {}, Some(0))];
  }

  /** A new thread takes its first lock, when nobody has it, and then asks for its second. */
  lemma Grip(ops: set<Op>, steps: seq<Step>, s: Threads, t: nat, op: Op) returns (more: seq<Step>)
    requires Reached(ops, steps, s) && t !in s && op in ops && |Chain(op)| >= 2
    requires !Taken(s, Chain(op)[0])
    ensures Reached(ops, more, s[t := Thread(op, {0}, Some(1))])
  {
    more := AskFirst(ops, steps, s, t, op);
    FirstIsFree(ops, s, t, op);
    more := Extend(ops, more, s[t := Thread(op, {}, Some(0))], Take(t));
    var holding := s[t := Thread(op, {0}, None)];
    more := Extend(ops, more, holding, Want(t, 1));
    assert holding[t := Thread(op, {0}, Some(1))] == s[t := Thread(op, {0}, Some(1))];
  }

  /** One executor blocks on its own plan lock. */
  lemma SelfTangledSticks(ops: set<Op>, p: Op) returns (steps: seq<Step>)
    requires p in ops && SelfTangled(p)
    ensures Sticks(ops, steps)
  {
    steps := Grip(ops, [], map[], 0, p);
    var s: Threads := map[0 := Thread(p, {0}, Some(1))];
    assert Holds(s, 0, 0, Chain(p)[1]);
  }

  lemma CrossedAreStuck(p: Op, q: Op)
    requires CrossTangled(p, q)
    ensures Stuck(map[0 := Thread(p, {0}, Some(1)), 1 := Thread(q, {0}, Some(1))])
  {
    var s: Threads := map[0 := Thread(p, {0}, Some(1)), 1 := Thread(q, {0}, Some(1))];
    assert Holds(s, 0, 0, Chain(q)[1]) && Holds(s, 1, 0, Chain(p)[1]);
  }

  /** Two executors block on each other. */
  lemma CrossTangledSticks(ops: set<Op>, p: Op, q: Op) returns (steps: seq<Step>)
    requires p in ops && q in ops && CrossTangled(p, q)
    ensures Sticks(ops, steps)
  {
    steps := Grip(ops, [], map[], 0, p);
    var s: Threads := map[0 := Thread(p, {0}, Some(1))];
    assert Chain(p)[0] != Chain(q)[0];
    steps := Grip(ops, steps, s, 1, q);
    CrossedAreStuck(p, q);
    assert s[1 := Thread(q, {0}, Some(1))] == map[0 := Thread(p, {0}, Some(1)), 1 := Thread(q, {0}, Some(1))];
  }

  /**
   For any number of threads running operations from `ops`: a state where nobody can move is reachable
   exactly when a draw schedule is named manual_draw, a claim schedule is named daily_claim, or one
   account has both a draw schedule named daily_claim and a claim schedule named manual_draw.
   */
  lemma DeadlockIffTangled(ops: set<Op>)
    requires forall op :: op in ops ==> Timely(op)
    ensures (exists steps :: Sticks(ops, steps)) <==> Tangled(ops)
  {
    if !Tangled(ops) {
      forall steps ensures !Sticks(ops, steps) {
        UntangledNeverSticks(ops, steps);
      }
    } else if p :| p in ops && SelfTangled(p) {
      var steps := SelfTangledSticks(ops, p);
    } else {
      var p, q :| p in ops && q in ops && CrossTangled(p, q);
      var steps := CrossTangledSticks(ops, p, q);
    }
  }
}
