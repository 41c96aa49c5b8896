/**
 The life of automatic plans over any sequence of ticks, crashes and failed writes, as a step system.
 One scheduler goroutine runs the ticks; a crash drops the plans it is executing.
 */
module PlanProtocol {
  import opened Prelude
  import opened State
  import opened Clock

  /** A draw request that reached the wire for a plan. */
  datatype DrawRequest = DrawRequest(plan: PlanKey, key: IdemKey)

  /**
   `tick` is the instant the latest tick read from the clock; `active` holds the executor's own copy of
   each plan it has begun; `issued` remembers the key each plan was created with; `late` the plans
   postponed after their own date had ended.
   */
  datatype Sched = Sched(
    now: int,
    tick: int,
    plans: map<PlanKey, Plan>,
    active: map<PlanKey, Plan>,
    issued: map<PlanKey, IdemKey>,
    runs: seq<PlanKey>,
    wire: seq<DrawRequest>,
    postponed: map<PlanKey, nat>,
    late: set<PlanKey>)

  datatype Step =
    | Advance(t: int)
    | BeginTick
    | Prune
    | Create(k: PlanKey, task: Task, at: int, key: IdemKey)
    | Begin(k: PlanKey)
    | SendDraw(k: PlanKey)
    | Finish(k: PlanKey, status: PlanStatus)
    | Postpone(k: PlanKey)
    | Leave(k: PlanKey)
    | Crash

  function Cutoff(tick: int): int {
    tick - RETENTION_DAYS * DAY
  }

  ghost predicate HasClaim(plans: map<PlanKey, Plan>, date: int, account: string) {
    exists k :: k in plans && k.date == date && k.account == account && plans[k].task.Claim?
  }

  function Kept(plans: map<PlanKey, Plan>, tick: int): map<PlanKey, Plan> {
    map k | k in plans && k.date >= BeijingDate(Cutoff(tick)) && plans[k].plannedAt >= Cutoff(tick) :: plans[k]
  }

  ghost predicate Enabled(s: Sched, step: Step) {
    match step
    case Advance(t) => t >= s.now
    case BeginTick => s.active == map[]
    case Prune => s.active == map[]
    case Create(k, task, at, key) =>
      && k !in s.plans && (forall j :: j in s.issued ==> s.issued[j] != key)
      && k.date == BeijingDate(s.tick) == BeijingDate(at)
      && (task.Claim? ==> !HasClaim(s.plans, k.date, k.account))
    case Begin(k) =>
      && k in s.plans && k !in s.active && !Terminal(s.plans[k].status)
      && k.date == BeijingDate(s.tick) && s.plans[k].plannedAt <= s.tick
    case SendDraw(k) => k in s.active && s.active[k].task.Draw?
    case Finish(k, status) => k in s.active && k in s.plans && Terminal(status)
    case Postpone(k) => k in s.active && k in s.plans && !Terminal(s.plans[k].status) && !SkipsForToday(s.now)
    case Leave(k) => k in s.active
    case Crash => true
  }

  ghost function Apply(s: Sched, step: Step): Sched
    requires Enabled(s, step)
  {
    match step
    case Advance(t) => s.(now := t)
    case BeginTick => s.(tick := s.now)
    case Prune => s.(plans := Kept(s.plans, s.tick))
    case Create(k, task, at, key) =>
      s.(plans := s.plans[k := Plan(task, at, key, PlanPending)],
         issued := s.issued[k := key], postponed := s.postponed[k := 0])
    case Begin(k) =>
      var p := Begun(s.plans[k]);
      s.(plans := s.plans[k := p], active := s.active[k := p], runs := s.runs + [k])
    case SendDraw(k) => s.(wire := s.wire + [DrawRequest(k, s.active[k].idemKey)])
    case Finish(k, status) => s.(plans := s.plans[k := s.plans[k].(status := status)], active := s.active - {k})
    case Postpone(k) =>
      s.(plans := s.plans[k := Postponed(s.plans[k], s.now + HOUR)],
         active := s.active - {k},
         postponed := s.postponed[k := Count(s, k) + 1],
         late := if BeijingDate(s.now) == k.date then s.late else s.late + {k})
    case Leave(k) => s.(active := s.active - {k})
    case Crash => s.(active := map[])
  }

  ghost function Count(s: Sched, k: PlanKey): nat {
    if k in s.postponed then s.postponed[k] else 0
  }

  ghost predicate Admissible(s: Sched, steps: seq<Step>)
    decreases |steps|, 0
  {
    steps != [] ==>
      var front := steps[..|steps| - 1];
      Admissible(s, front) && Enabled(Run(s, front), Last(steps))
  }

  ghost function Run(s: Sched, steps: seq<Step>): Sched
    requires Admissible(s, steps)
    decreases |steps|, 1
  {
    if steps == [] then s else Apply(Run(s, steps[..|steps| - 1]), Last(steps))
  }

  /** Nothing planned yet. */
  function Empty(now: int): Sched {
    Sched(now, now, map[], map[], map[], [], [], map[], {})
  }

  // ----- the invariant -----

  /** The hours c postponements take at least: none is made in the hour of 7. */
  function HoursFor(c: nat): nat {
    if c <= 7 then c else c + 1
  }

  /** What holds of one plan key: its idempotency key, its executor's copy, its times, its lifetime. */
  ghost predicate KeyOk(s: Sched, k: PlanKey) {
    && (k in s.plans ==>
          && k in s.issued && s.plans[k].idemKey == s.issued[k]
          && s.plans[k].plannedAt >= DayStart(k.date) + Hours(HoursFor(Count(s, k)))
          && (k !in s.late ==> s.plans[k].plannedAt < DayStart(k.date) + DAY))
    && (k in s.active ==>
          && k in s.plans && s.active[k].idemKey == s.plans[k].idemKey
          && !Terminal(s.plans[k].status) && s.plans[k].plannedAt <= s.tick)
    // a plan once created stays in the store at least until its date has passed
    && (k in s.issued && k.date >= BeijingDate(s.tick) ==> k in s.plans)
  }

  ghost predicate WireKeyed(s: Sched) {
    forall i :: 0 <= i < |s.wire| ==> s.wire[i].plan in s.issued && s.wire[i].key == s.issued[s.wire[i].plan]
  }

  ghost predicate KeysDistinct(s: Sched) {
    forall j, k :: j in s.issued && k in s.issued && s.issued[j] == s.issued[k] ==> j == k
  }

  ghost predicate OneClaimADay(s: Sched) {
    forall j, k :: j in s.plans && k in s.plans && s.plans[j].task.Claim? && s.plans[k].task.Claim? ==>
      j.date == k.date && j.account == k.account ==> j == k
  }

  ghost predicate Inv(s: Sched) {
    s.tick <= s.now && (forall k :: KeyOk(s, k)) && WireKeyed(s) && KeysDistinct(s) && OneClaimADay(s)
  }

  lemma PruneSparesToday(s: Sched, k: PlanKey)
    requires KeyOk(s, k) && k in s.plans && k.date >= BeijingDate(s.tick)
    ensures k in Kept(s.plans, s.tick)
  {
    DateBounds(s.tick);
    DateIsMonotone(Cutoff(s.tick), s.tick);
    assert s.plans[k].plannedAt >= DayStart(k.date) >= DayStart(BeijingDate(s.tick));
  }

  /** A plan is created only under a key that was never used: no executed plan is ever recreated. */
  lemma CreationIsNew(s: Sched, k: PlanKey)
    requires Inv(s) && k !in s.plans && k.date == BeijingDate(s.tick)
    ensures k !in s.issued
  {
    assert KeyOk(s, k);
  }

  lemma PostponeKeepsKey(s: Sched, step: Step, k: PlanKey)
    requires s.tick <= s.now && KeyOk(s, k) && Enabled(s, step) && step.Postpone?
    ensures KeyOk(Apply(s, step), k)
  {
    PostponedStaysOnTheDay(s.now);
    DateBounds(s.now + HOUR);
    SkipsExactlyAt23And7(s.now);
    if k == step.k && Count(s, k) == 7 {
      PastSeven(s.now, k.date);
    }
  }

  lemma StepKeepsKey(s: Sched, step: Step, k: PlanKey)
    requires s.tick <= s.now && KeyOk(s, k) && Enabled(s, step)
    ensures KeyOk(Apply(s, step), k)
  {
    match step
    case BeginTick => DateIsMonotone(s.tick, s.now);
    case Prune => if k in s.plans && k.date >= BeijingDate(s.tick) { PruneSparesToday(s, k); }
    case Create(_, _, at, _) => DateBounds(at);
    case Postpone(_) =>
      PostponeKeepsKey(s, step, k);
    case _ =>
  }

  lemma StepKeepsWire(s: Sched, step: Step)
    requires Inv(s) && Enabled(s, step)
    ensures WireKeyed(Apply(s, step)) && KeysDistinct(Apply(s, step))
  {
    if step.Create? {
      CreationIsNew(s, step.k);
    } else if step.SendDraw? {
      assert KeyOk(s, step.k);
    }
  }

  lemma StepKeepsClaims(s: Sched, step: Step)
    requires Inv(s) && Enabled(s, step)
    ensures OneClaimADay(Apply(s, step))
  {}

  lemma StepKeepsInv(s: Sched, step: Step)
    requires Inv(s) && Enabled(s, step)
    ensures Inv(Apply(s, step))
  {
    forall k ensures KeyOk(Apply(s, step), k) {
      StepKeepsKey(s, step, k);
    }
    StepKeepsWire(s, step);
    StepKeepsClaims(s, step);
  }

  lemma {:induction false} RunKeepsInv(s: Sched, steps: seq<Step>)
    requires Inv(s) && Admissible(s, steps)
    ensures Inv(Run(s, steps))
  {
    if steps != [] {
      RunKeepsInv(s, steps[..|steps| - 1]);
      StepKeepsInv(Run(s, steps[..|steps| - 1]), Last(steps));
    }
  }

  // ----- what holds over every history -----

  /** Every draw request ever sent for one plan carries one key, and different plans never share one. */
  lemma OneKeyPerPlan(now: int, steps: seq<Step>, i: nat, j: nat)
    requires Admissible(Empty(now), steps)
    requires i < |Run(Empty(now), steps).wire| && j < |Run(Empty(now), steps).wire|
    ensures var w := Run(Empty(now), steps).wire; w[i].plan == w[j].plan <==> w[i].key == w[j].key
  {
    RunKeepsInv(Empty(now), steps);
  }

  /** A plan that has ended: later it is unchanged, or gone because its date has passed. */
  ghost predicate Ended(s: Sched, t: Sched, k: PlanKey)
    requires k in s.plans
  {
    && (k in t.plans ==> t.plans[k] == s.plans[k])
    && (k !in t.plans ==> k.date < BeijingDate(t.tick))
    && k !in t.active
    && |t.runs| >= |s.runs| && (forall i :: |s.runs| <= i < |t.runs| ==> t.runs[i] != k)
    && |t.wire| >= |s.wire| && (forall i :: |s.wire| <= i < |t.wire| ==> t.wire[i].plan != k)
    && BeijingDate(s.tick) <= BeijingDate(t.tick)
  }

  lemma EndedStays(s: Sched, t: Sched, step: Step, k: PlanKey)
    requires Inv(t) && Enabled(t, step) && k in s.plans && Terminal(s.plans[k].status) && Ended(s, t, k)
    ensures Ended(s, Apply(t, step), k)
  {
    assert KeyOk(t, k);
    if step.BeginTick? {
      DateIsMonotone(t.tick, t.now);
    } else if step.Prune? && k in t.plans && k.date >= BeijingDate(t.tick) {
      PruneSparesToday(t, k);
    }
  }

  /**
   Once a plan is terminal its status never changes, its executor never runs again and no draw is sent
   for it again, whatever ticks, crashes and failed writes follow.
   */
  lemma {:induction false} TerminalIsFinal(s: Sched, more: seq<Step>, k: PlanKey)
    requires Inv(s) && k in s.plans && Terminal(s.plans[k].status) && Admissible(s, more)
    ensures Ended(s, Run(s, more), k)
  {
    assert KeyOk(s, k);
    if more != [] {
      var front := more[..|more| - 1];
      TerminalIsFinal(s, front, k);
      RunKeepsInv(s, front);
      EndedStays(s, Run(s, front), Last(more), k);
    }
  }

  /** In every reachable state an account has at most one claim plan for a date. */
  lemma {:induction false} ClaimPlansAreUnique(now: int, steps: seq<Step>, j: PlanKey, k: PlanKey)
    requires Admissible(Empty(now), steps)
    requires var s := Run(Empty(now), steps);
             j in s.plans && k in s.plans && s.plans[j].task.Claim? && s.plans[k].task.Claim?
    ensures j.date == k.date && j.account == k.account ==> j == k
  {
    RunKeepsInv(Empty(now), steps);
  }

  /**
   A check-in whose attempts all returned on its own date was postponed at most 22 times: never in the
   hours 7 and 23.
   */
  lemma PostponedAtMost22Times(now: int, steps: seq<Step>, k: PlanKey)
    requires Admissible(Empty(now), steps)
    requires var s := Run(Empty(now), steps); k in s.plans && k !in s.late
    ensures Count(Run(Empty(now), steps), k) <= 22
  {
    RunKeepsInv(Empty(now), steps);
    assert KeyOk(Run(Empty(now), steps), k);
  }

  lemma RunSnoc(s: Sched, steps: seq<Step>, step: Step)
    requires Admissible(s, steps) && Enabled(Run(s, steps), step)
    ensures Admissible(s, steps + [step]) && Run(s, steps + [step]) == Apply(Run(s, steps), step)
  {
    assert (steps + [step])[..|steps + [step]| - 1] == steps;
  }

  // ----- reachable states, for code that follows the protocol -----

  ghost predicate Initial(s: Sched) {
    s == Empty(s.now)
  }

  ghost predicate Closed(inv: iset<Sched>) {
    && (forall s :: Initial(s) ==> s in inv)
    && forall s, step :: s in inv && Enabled(s, step) ==> Apply(s, step) in inv
  }

  /** s has every property that holds at the start and that every step keeps. */
  ghost predicate Reachable(s: Sched) {
    forall inv :: Closed(inv) ==> s in inv
  }

  ghost predicate Reaches(now: int, steps: seq<Step>, s: Sched) {
    Admissible(Empty(now), steps) && Run(Empty(now), steps) == s
  }

  ghost predicate HasHistory(s: Sched) {
    exists now, steps :: Reaches(now, steps, s)
  }

  lemma ReachesStep(now: int, steps: seq<Step>, s: Sched, step: Step)
    requires Reaches(now, steps, s) && Enabled(s, step)
    ensures Reaches(now, steps + [step], Apply(s, step))
  {
    RunSnoc(Empty(now), steps, step);
  }

  lemma {:induction false} RunStaysIn(now: int, steps: seq<Step>, inv: iset<Sched>)
    requires Admissible(Empty(now), steps) && Closed(inv)
    ensures Run(Empty(now), steps) in inv
  {
    assert Initial(Empty(now));
    if steps != [] {
      RunStaysIn(now, steps[..|steps| - 1], inv);
    }
  }

  /** The reachable states are exactly the results of the histories. */
  lemma ReachableByRuns(s: Sched)
    ensures Reachable(s) <==> HasHistory(s)
  {
    if now, steps :| Reaches(now, steps, s) {
      forall inv | Closed(inv) ensures s in inv {
        RunStaysIn(now, steps, inv);
      }
    }
    if Reachable(s) {
      var results := iset t | HasHistory(t);
      forall t | Initial(t) ensures t in results {
        assert Reaches(t.now, [], t);
      }
      forall t, step | t in results && Enabled(t, step) ensures Apply(t, step) in results {
        var now, steps :| Reaches(now, steps, t);
        ReachesStep(now, steps, t, step);
      }
      assert Closed(results);
    }
  }

  lemma ReachableStep(s: Sched, step: Step)
    requires Reachable(s) && Enabled(s, step)
    ensures Reachable(Apply(s, step))
  {}

  lemma ReachableInv(s: Sched)
    requires Reachable(s)
    ensures Inv(s)
  {
    ReachableByRuns(s);
    var now, steps :| Reaches(now, steps, s);
    RunKeepsInv(Empty(now), steps);
  }

  // ----- one write that adds many plans -----

  /** A claim plan stands alone on its account and date. */
  ghost predicate StandsAlone(plans: map<PlanKey, Plan>, k: PlanKey) {
    k in plans && plans[k].task.Claim? ==>
      forall j :: j in plans && plans[j].task.Claim? && j.date == k.date && j.account == k.account ==> j == k
  }

  /** plans adds to s only today's pending plans, under keys never issued, next being unused as well. */
  ghost predicate Creatable(s: Sched, plans: map<PlanKey, Plan>, next: IdemKey) {
    && (forall k :: k in s.plans ==> k in plans && plans[k] == s.plans[k])
    && (forall k :: k in plans && k !in s.plans ==>
          && plans[k].status == PlanPending && plans[k].idemKey < next
          && k.date == BeijingDate(s.tick) == BeijingDate(plans[k].plannedAt) && StandsAlone(plans, k))
    && (forall j, k :: j in s.issued && k in plans && k !in s.plans ==> s.issued[j] != plans[k].idemKey)
    && (forall j, k :: j in plans && k in plans && j !in s.plans && k !in s.plans ==>
          plans[j].idemKey == plans[k].idemKey ==> j == k)
    && (forall k :: k in s.issued ==> s.issued[k] < next)
  }

  lemma CreateOne(s: Sched, plans: map<PlanKey, Plan>, next: IdemKey, k: PlanKey)
    requires Creatable(s, plans, next) && k in plans && k !in s.plans
    ensures var step := Create(k, plans[k].task, plans[k].plannedAt, plans[k].idemKey);
            Enabled(s, step) && Creatable(Apply(s, step), plans, next)
  {
    assert StandsAlone(plans, k);
  }

  /** Such a write is a sequence of Create steps. */
  lemma {:induction false} CreateAll(s: Sched, plans: map<PlanKey, Plan>, next: IdemKey) returns (t: Sched)
    requires Reachable(s) && Creatable(s, plans, next)
    ensures Reachable(t) && t.plans == plans && t.now == s.now && t.tick == s.tick && t.active == s.active
    ensures t.wire == s.wire
    ensures forall k :: k in t.issued ==> t.issued[k] < next
    decreases plans.Keys - s.plans.Keys
  {
    if k :| k in plans && k !in s.plans {
      var step := Create(k, plans[k].task, plans[k].plannedAt, plans[k].idemKey);
      CreateOne(s, plans, next, k);
      ReachableStep(s, step);
      assert Apply(s, step).plans.Keys == s.plans.Keys + {k};
      t := CreateAll(Apply(s, step), plans, next);
    } else {
      t := s;
    }
  }
}
