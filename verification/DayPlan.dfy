/**
 Which plans a day needs and when they are due: the instant of a schedule, the entries a tick has to plan
 for, and the loops that collect them. Dates are numbers (see Clock).
 */
module DayPlan {
  import opened Prelude
  import opened State
  import opened Clock
  import opened PlanProtocol

  function StartAt(date: int, e: Schedule): int {
    DayStart(date) + e.start * MINUTE
  }

  function EndAt(date: int, e: Schedule): int {
    DayStart(date) + e.end * MINUTE
  }

  function Later(a: int, b: int): int {
    if a < b then b else a
  }

  /** Today's chance is over: a fixed start already reached, or less than a second of the window left. */
  predicate WindowOver(date: int, e: Schedule, now: int) {
    match e.kind
    case Fixed => StartAt(date, e) <= now
    case Random => EndAt(date, e) - Later(StartAt(date, e), now) < SECOND
  }

  /** Where a created plan's instant may lie. */
  ghost predicate Scheduled(date: int, e: Schedule, now: int, at: int) {
    && BeijingDate(at) == date
    && match e.kind
       case Fixed => at > now && MinuteOfDay(at) == e.start && at % 60_000_000_000 == 0
       case Random =>
         var first := Later(StartAt(date, e), now);
         && first <= at && e.start <= MinuteOfDay(at) < e.end
         && at - first < 3_600_000_000_000 && (at - first) % 1_000_000_000 == 0
  }

  /** The random source. */
  class Dice {
    ghost var failures: nat

    constructor ()
      ensures failures == 0
    {
      failures := 0;
    }

    /** A number below the limit, unless the source fails. */
    method Roll(limit: int) returns (r: Option<int>)
      requires limit > 0
      modifies this
      ensures r.Some? ==> 0 <= r.value < limit && failures == old(failures)
      ensures r.None? ==> failures == old(failures) + 1
    {
      if * {
        failures := failures + 1;
        return None;
      }
      var n: int :| 0 <= n < limit;
      return Some(n);
    }
  }

  /** Resolves today's instant of a schedule. */
  method ScheduleTime(date: int, e: Schedule, now: int, dice: Dice) returns (r: Option<int>)
    requires Normalized(e)
    modifies dice
    ensures dice.failures >= old(dice.failures)
    ensures r.Some? ==> Scheduled(date, e, now, r.value)
    ensures WindowOver(date, e, now) ==> r.None?
    ensures !WindowOver(date, e, now) && dice.failures == old(dice.failures) ==> r.Some?
  {
    var startAt := StartAt(date, e);
    ClockShows(date, e.start);
    if e.kind.Fixed? {
      return if startAt > now then Some(startAt) else None;
    }
    var endAt := EndAt(date, e);
    var effectiveStart := if startAt < now then now else startAt;
    if endAt <= effectiveStart {
      return None;
    }
    var duration := (endAt - effectiveStart) / SECOND;
    if duration > MAX_OFFSET_SECONDS {
      duration := MAX_OFFSET_SECONDS;
    }
    if duration <= 0 {
      return None;
    }
    var offset := dice.Roll(duration);
    if offset.None? {
      return None;
    }
    var at := effectiveStart + offset.value * SECOND;
    OffsetFits(effectiveStart, endAt, offset.value);
    ClockBetween(date, e.start, e.end, at);
    return Some(at);
  }

  lemma OffsetFits(first: int, end: int, offset: int)
    requires first < end && 0 <= offset < (end - first) / SECOND && offset < MAX_OFFSET_SECONDS
    ensures first <= first + offset * SECOND < end
    ensures offset * SECOND < MAX_OFFSET_SECONDS * SECOND && offset * SECOND % SECOND == 0
  {}

  // ----- which plans a tick must create and may run -----

  /** The enabled entry a plan key belongs to. */
  ghost predicate Entry(schedules: map<string, seq<Schedule>>, k: PlanKey, e: Schedule) {
    k.account in schedules && e in schedules[k.account] && e.enabled && e.id == k.window
  }

  /** A leftover of a removed, disabled or replaced schedule, or of an account that is not enabled, must not fire. */
  ghost predicate MayFire(schedules: map<string, seq<Schedule>>, accounts: seq<string>, k: PlanKey) {
    k.account in accounts && exists e :: Entry(schedules, k, e)
  }

  /** A request for today, made for an enabled entry of an enabled account. */
  ghost predicate Wanted(schedules: map<string, seq<Schedule>>, accounts: seq<string>, date: int, now: int, k: PlanKey,
                         task: Task, at: int) {
    && k.date == date && k.account in accounts && k.account != ""
    && exists e :: Entry(schedules, k, e) && e.task == task && Scheduled(date, e, now, at)
  }

  /** Nothing more to plan today for this entry: planned, or claimed by another entry, or too late. */
  ghost predicate Served(plans: map<PlanKey, Plan>, date: int, now: int, account: string, e: Schedule) {
    || PlanKey(date, e.id, account) in plans
    || (e.task.Claim? && HasClaim(plans, date, account))
    || WindowOver(date, e, now)
  }

  ghost predicate SchedulesSound(schedules: map<string, seq<Schedule>>) {
    forall a :: a in schedules ==> Acceptable(schedules[a])
  }

  /** At most one claim request an account, none where a claim is planned already. */
  ghost predicate OneClaimEach(missing: seq<PlanRequest>, plans: map<PlanKey, Plan>, date: int) {
    && (forall i, j :: 0 <= i < j < |missing| ==> missing[i].task.Claim? && missing[j].task.Claim? ==>
          missing[i].key.account != missing[j].key.account)
    && (forall q :: q in missing ==> q.key !in plans && (q.task.Claim? ==> !HasClaim(plans, date, q.key.account)))
  }

  lemma RequestsStandAlone(missing: seq<PlanRequest>, before: map<PlanKey, Plan>, after: map<PlanKey, Plan>, date: int,
                           first: IdemKey, next: IdemKey, k: PlanKey)
    requires OneClaimEach(missing, before, date) && forall q :: q in missing ==> q.key.date == date
    requires forall j :: j in before ==> j in after && after[j] == before[j]
    requires forall j :: j in after && j !in before ==> Asked(missing, j, after[j], first, next)
    requires k in after && k !in before
    ensures StandsAlone(after, k)
  {
    if after[k].task.Claim? {
      forall j | j in after && after[j].task.Claim? && j.date == k.date && j.account == k.account ensures j == k {
        var own := PlanRequest(k, Claim, after[k].plannedAt);
        assert own in missing;
        if j !in before {
          assert PlanRequest(j, Claim, after[j].plannedAt) in missing;
        }
      }
    }
  }

  /** Like Served, counting the requests collected so far. */
  ghost predicate Covered(plans: map<PlanKey, Plan>, missing: seq<PlanRequest>, date: int, now: int, account: string,
                          e: Schedule) {
    || Served(plans, date, now, account, e)
    || exists q :: q in missing && q.key.account == account
                   && (q.key == PlanKey(date, e.id, account) || (e.task.Claim? && q.task.Claim?))
  }

  ghost predicate AllWanted(schedules: map<string, seq<Schedule>>, accounts: seq<string>, date: int, now: int,
                            missing: seq<PlanRequest>) {
    forall q :: q in missing ==> Wanted(schedules, accounts, date, now, q.key, q.task, q.plannedAt)
  }

  /** The accounts that have a claim planned today or asked for. */
  ghost predicate ClaimedExactly(claimed: set<string>, plans: map<PlanKey, Plan>, missing: seq<PlanRequest>,
                                 date: int) {
    forall a :: a in claimed <==>
      HasClaim(plans, date, a) || exists q :: q in missing && q.task.Claim? && q.key.account == a
  }

  function EntriesOf(schedules: map<string, seq<Schedule>>, account: string): seq<Schedule> {
    if account in schedules then schedules[account] else []
  }

  ghost predicate AllServed(schedules: map<string, seq<Schedule>>, plans: map<PlanKey, Plan>, date: int, now: int,
                            account: string) {
    forall e :: e in EntriesOf(schedules, account) && e.enabled ==> Served(plans, date, now, account, e)
  }

  lemma StaysServed(plans: map<PlanKey, Plan>, plans': map<PlanKey, Plan>, schedules: map<string, seq<Schedule>>,
                    date: int, now: int, account: string)
    requires plans'.Keys == plans.Keys && forall k :: k in plans ==> plans'[k].task == plans[k].task
    requires AllServed(schedules, plans, date, now, account)
    ensures AllServed(schedules, plans', date, now, account)
  {
    if HasClaim(plans, date, account) {
      var k :| k in plans && k.date == date && k.account == account && plans[k].task.Claim?;
      assert plans'[k].task.Claim?;
    }
  }

  /** What the store made of the requests is what the protocol's Create allows. */
  lemma NewPlansCreatable(s: Sched, missing: seq<PlanRequest>, after: map<PlanKey, Plan>,
                          schedules: map<string, seq<Schedule>>, accounts: seq<string>, now: int,
                          first: IdemKey, next: IdemKey)
    requires s.tick == now && first <= next && (forall k :: k in s.issued ==> s.issued[k] < first)
    requires AllWanted(schedules, accounts, BeijingDate(now), now, missing)
    requires OneClaimEach(missing, s.plans, BeijingDate(now))
    requires forall j :: j in s.plans ==> j in after && after[j] == s.plans[j]
    requires forall j :: j in after && j !in s.plans ==> Asked(missing, j, after[j], first, next)
    requires forall j, k :: j in after && k in after && j !in s.plans && k !in s.plans ==>
               after[j].idemKey == after[k].idemKey ==> j == k
    ensures Creatable(s, after, next)
  {
    forall k | k in after && k !in s.plans
      ensures k.date == BeijingDate(now) == BeijingDate(after[k].plannedAt) && StandsAlone(after, k)
    {
      assert Asked(missing, k, after[k], first, next);
      RequestsStandAlone(missing, s.plans, after, BeijingDate(now), first, next, k);
    }
  }

  /** Entries of one account have distinct identifiers, so requests under one key are of one task. */
  lemma SameTask(schedules: map<string, seq<Schedule>>, accounts: seq<string>, date: int, now: int, p: PlanRequest,
                 q: PlanRequest)
    requires SchedulesSound(schedules) && p.key == q.key
    requires Wanted(schedules, accounts, date, now, p.key, p.task, p.plannedAt)
    requires Wanted(schedules, accounts, date, now, q.key, q.task, q.plannedAt)
    ensures p.task == q.task
  {
    var e :| Entry(schedules, p.key, e) && e.task == p.task;
    var f :| Entry(schedules, p.key, f) && f.task == q.task;
    var entries := schedules[p.key.account];
    assert Acceptable(entries);
    var i :| 0 <= i < |entries| && entries[i] == e;
    var j :| 0 <= j < |entries| && entries[j] == f;
    assert i == j;
  }

  lemma CoveredIsServed(missing: seq<PlanRequest>, before: map<PlanKey, Plan>, after: map<PlanKey, Plan>,
                        schedules: map<string, seq<Schedule>>, accounts: seq<string>, date: int, now: int,
                        first: IdemKey, next: IdemKey, account: string)
    requires SchedulesSound(schedules) && AllWanted(schedules, accounts, date, now, missing)
    requires OneClaimEach(missing, before, date)
    requires forall j :: j in before ==> j in after && after[j] == before[j]
    requires forall j :: j in after && j !in before ==> Asked(missing, j, after[j], first, next)
    requires forall q :: q in missing ==> q.key in after
    requires AllCovered(schedules, before, missing, date, now, account)
    ensures AllServed(schedules, after, date, now, account)
  {
    forall e | e in EntriesOf(schedules, account) && e.enabled ensures Served(after, date, now, account, e) {
      assert Covered(before, missing, date, now, account, e);
      if !Served(before, date, now, account, e) {
        var q :| && q in missing && q.key.account == account
                 && (q.key == PlanKey(date, e.id, account) || (e.task.Claim? && q.task.Claim?));
        var p := PlanRequest(q.key, after[q.key].task, after[q.key].plannedAt);
        assert Asked(missing, q.key, after[q.key], first, next);
        SameTask(schedules, accounts, date, now, p, q);
      }
    }
  }

  ghost predicate AllCovered(schedules: map<string, seq<Schedule>>, plans: map<PlanKey, Plan>,
                             missing: seq<PlanRequest>, date: int, now: int, account: string) {
    forall e :: e in EntriesOf(schedules, account) && e.enabled ==> Covered(plans, missing, date, now, account, e)
  }

  lemma StillCovered(plans: map<PlanKey, Plan>, missing: seq<PlanRequest>, more: seq<PlanRequest>, date: int, now: int,
                     account: string, entries: seq<Schedule>)
    requires missing <= more
    ensures forall e :: e in entries && Covered(plans, missing, date, now, account, e) ==>
              Covered(plans, more, date, now, account, e)
  {}

  // ----- the planning loops -----

  /** Whether one entry needs a plan today, and when. */
  method CollectEntry(plans: map<PlanKey, Plan>, ghost schedules: map<string, seq<Schedule>>,
                      ghost accounts: seq<string>, account: string, e: Schedule, date: int, now: int,
                      asked: seq<PlanRequest>, taken: set<string>, dice: Dice)
      returns (missing: seq<PlanRequest>, claimed: set<string>)
    requires SchedulesSound(schedules) && account in accounts && account != "" && e in EntriesOf(schedules, account)
    requires AllWanted(schedules, accounts, date, now, asked) && OneClaimEach(asked, plans, date)
    requires ClaimedExactly(taken, plans, asked, date)
    modifies dice
    ensures asked <= missing && AllWanted(schedules, accounts, date, now, missing) && OneClaimEach(missing, plans, date)
    ensures ClaimedExactly(claimed, plans, missing, date)
    ensures dice.failures >= old(dice.failures)
    ensures dice.failures == old(dice.failures) && e.enabled ==> Covered(plans, missing, date, now, account, e)
  {
    missing, claimed := asked, taken;
    if !e.enabled || (e.task.Claim? && account in claimed) {
      return;
    }
    var k := PlanKey(date, e.id, account);
    if k in plans {
      return;
    }
    assert Normalized(e);
    var at := ScheduleTime(date, e, now, dice);
    if at.None? {
      return;
    }
    var q := PlanRequest(k, e.task, at.value);
    assert Entry(schedules, k, e);
    missing := missing + [q];
    assert q in missing;
    if e.task.Claim? {
      claimed := claimed + {account};
    }
  }

  /** The missing plans of one account, after those of earlier accounts. */
  method CollectFor(plans: map<PlanKey, Plan>, schedules: map<string, seq<Schedule>>, ghost accounts: seq<string>,
                    account: string, date: int, now: int, asked: seq<PlanRequest>, taken: set<string>, dice: Dice)
      returns (missing: seq<PlanRequest>, claimed: set<string>)
    requires SchedulesSound(schedules) && account in accounts && account != ""
    requires AllWanted(schedules, accounts, date, now, asked) && OneClaimEach(asked, plans, date)
    requires ClaimedExactly(taken, plans, asked, date)
    modifies dice
    ensures asked <= missing && AllWanted(schedules, accounts, date, now, missing) && OneClaimEach(missing, plans, date)
    ensures ClaimedExactly(claimed, plans, missing, date)
    ensures dice.failures >= old(dice.failures)
    ensures dice.failures == old(dice.failures) ==> AllCovered(schedules, plans, missing, date, now, account)
  {
    missing, claimed := asked, taken;
    var entries := EntriesOf(schedules, account);
    for i := 0 to |entries|
      invariant asked <= missing && AllWanted(schedules, accounts, date, now, missing)
      invariant OneClaimEach(missing, plans, date)
      invariant ClaimedExactly(claimed, plans, missing, date)
      invariant dice.failures >= old(dice.failures)
      invariant dice.failures == old(dice.failures) ==> forall e :: e in entries[..i] && e.enabled ==>
                  Covered(plans, missing, date, now, account, e)
    {
      var e := entries[i];
      ghost var before := missing;
      missing, claimed := CollectEntry(plans, schedules, accounts, account, e, date, now, missing, claimed, dice);
      StillCovered(plans, before, missing, date, now, account, entries[..i]);
      assert entries[..i + 1] == entries[..i] + [e];
    }
    assert entries[..|entries|] == entries;
  }

  /** Every plan the enabled accounts still need today. */
  method CollectMissing(plans: map<PlanKey, Plan>, schedules: map<string, seq<Schedule>>, accounts: seq<string>,
                        date: int, now: int, dice: Dice)
      returns (missing: seq<PlanRequest>)
    requires SchedulesSound(schedules)
    modifies dice
    ensures AllWanted(schedules, accounts, date, now, missing) && OneClaimEach(missing, plans, date)
    ensures dice.failures >= old(dice.failures)
    ensures dice.failures == old(dice.failures) ==>
              forall a :: a in accounts && a != "" ==> AllCovered(schedules, plans, missing, date, now, a)
  {
    missing := [];
    var claimed := set k | k in plans && k.date == date && plans[k].task.Claim? :: k.account;
    for i := 0 to |accounts|
      invariant AllWanted(schedules, accounts, date, now, missing) && OneClaimEach(missing, plans, date)
      invariant ClaimedExactly(claimed, plans, missing, date)
      invariant dice.failures >= old(dice.failures)
      invariant dice.failures == old(dice.failures) ==> forall a :: a in accounts[..i] && a != "" ==>
                  AllCovered(schedules, plans, missing, date, now, a)
    {
      var account := accounts[i];
      ghost var before := missing;
      if account != "" {
        missing, claimed := CollectFor(plans, schedules, accounts, account, date, now, missing, claimed, dice);
      }
      forall a | a in accounts[..i] && AllCovered(schedules, plans, before, date, now, a)
        ensures AllCovered(schedules, plans, missing, date, now, a)
      {
        StillCovered(plans, before, missing, date, now, a, EntriesOf(schedules, a));
      }
      assert accounts[..i + 1] == accounts[..i] + [account];
    }
    assert accounts[..|accounts|] == accounts;
  }

  /** Whether the plan's entry is still there and enabled. */
  method FindSchedule(schedules: map<string, seq<Schedule>>, k: PlanKey) returns (found: bool)
    ensures found <==> exists e :: Entry(schedules, k, e)
  {
    var entries := EntriesOf(schedules, k.account);
    for i := 0 to |entries|
      invariant forall e :: e in entries[..i] ==> !Entry(schedules, k, e)
    {
      if entries[i].id == k.window && entries[i].enabled {
        assert Entry(schedules, k, entries[i]);
        return true;
      }
    }
    assert entries[..|entries|] == entries;
    return false;
  }
}
