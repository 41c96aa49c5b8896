/**
 The scheduler's tick as the code runs it, over the store and a clock that only moves forward. The ghost
 field `spec` follows PlanProtocol, so every theorem about its runs holds of this object; a crash is the
 step Crash, enabled at every point.
 */
module Scheduler {
  import opened Prelude
  import opened State
  import opened Clock
  import opened PlanProtocol
  import opened DailyClaim
  import opened DayPlan
  import opened Executors
  import Keys

  /**
   One execution: what the executor reported (none when the plan must not fire), what a draw met on its way,
   and the instant the executor was started at.
   */
  datatype Episode = Episode(report: Option<Report>, log: seq<Event>, at: int)

  /**
   The status a plan ends with; None for the check-in that has to wait. A claim that returned no error
   counts as completed, whatever its own record says (CompletedPlanIsClaimIff).
   */
  function EndsAs(report: Report): Option<PlanStatus> {
    match report
    case Errored(Reauth) => Some(PlanSkipped)
    case Errored(_) => Some(PlanFailed)
    case Ran(skipped) => Some(if skipped then PlanSkipped else PlanCompleted)
    case Claimed(_) => Some(PlanCompleted)
    case CheckedIn(Awarded) => Some(PlanCompleted)
    case CheckedIn(NeedsReauth) => Some(PlanSkipped)
    case CheckedIn(NotActiveEnough) => None
    case CheckedIn(_) => Some(PlanFailed)
  }

  ghost predicate NothingDue(plans: map<PlanKey, Plan>, tick: int) {
    forall k :: k in plans ==> !Due(plans[k], k, tick)
  }

  /** A plan the tick has to run. */
  predicate Due(p: Plan, k: PlanKey, tick: int) {
    k.date == BeijingDate(tick) && p.plannedAt <= tick && !Terminal(p.status)
  }

  /** Draw requests sent for k on top of an earlier wire. */
  ghost predicate Sent(before: seq<DrawRequest>, after: seq<DrawRequest>, k: PlanKey, n: nat) {
    && |after| == |before| + n && after[..|before|] == before
    && forall i :: |before| <= i < |after| ==> after[i].plan == k
  }

  /** What plan keys of the scheduler look like: account codes hold no colon, window identifiers may. */
  ghost predicate Named(k: PlanKey) {
    k.account != "" && Keys.NoColon(k.account) && k.window != ""
  }

  function LogOf(k: PlanKey, at: int, task: Task, status: PlanStatus): LogEntry {
    LogEntry(at, k.account, k.window, task, status)
  }

  /** One report of an executor, with what a draw met on its way and the instant the executor was done. */
  datatype Performance = Performance(k: PlanKey, report: Report, log: seq<Event>, at: int)

  /** What the scheduler, its store and its protocol state hold at one moment; `faults` counts what has failed. */
  datatype View = View(
    plans: map<PlanKey, Plan>,
    logs: seq<LogEntry>,
    book: Claims,
    active: map<PlanKey, Plan>,
    tick: int,
    wire: seq<DrawRequest>,
    history: seq<Performance>,
    clock: int,
    stopping: bool,
    faults: nat)

  /** Time, failures and the shutdown only go forward; what did not work out had a fault or the shutdown behind it. */
  ghost predicate Onward(u: View, v: View, ok: bool) {
    && u.clock <= v.clock && u.faults <= v.faults && (u.stopping ==> v.stopping)
    && (ok || u.faults < v.faults || v.stopping)
  }

  /** What the executor of a plan did; without a report it was never started. */
  ghost predicate Acted(u: View, v: View, k: PlanKey, plan: Plan, ep: Episode) {
    && v.wire == u.wire + Requests(ep.log) && u.clock <= ep.at <= v.clock
    && if ep.report.Some? then
         && v.history == u.history + [Performance(k, ep.report.value, ep.log, ep.at)]
         && Played(k, plan, ep.report.value, ep.log)
         && ClaimedFor(plan.task, u.book, v.book, k.account, ep.report.value, ep.at, v.faults == u.faults)
       else
         ep.log == [] && v.book == u.book && v.history == u.history
  }

  /** The report came too late to end the plan: the service was going down. */
  predicate CutShort(ep: Episode, stopping: bool) {
    ep.report.Some? && Interrupted(ep.report.value, stopping)
  }

  function WaitingLine(k: PlanKey, now: int): seq<LogEntry> {
    if Keys.NoColon(k.window) then [LogEntry(now, k.account, k.window, AutoCheckin, PlanSkipped)] else []
  }

  /**
   A check-in that was not active enough: given up (in the Beijing hours 23 and 7, Clock.SkipsExactlyAt23And7),
   else due again an hour later.
   */
  function Waited(p: Plan, now: int): Plan {
    if SkipsForToday(now) then p.(status := PlanSkipped) else Postponed(p, now + HOUR)
  }

  /** What an undisturbed execution makes of a due plan; no report when the plan must not fire. */
  function EndOf(p: Plan, report: Option<Report>, now: int): Plan {
    if report.None? then p.(status := PlanSkipped)
    else
      match EndsAs(report.value)
      case Some(status) => p.(status := status)
      case None => Waited(p, now)
  }

  /** The log line of that execution; a postponement loses it when the window identifier holds a colon. */
  function LineOf(k: PlanKey, end: Plan, now: int): seq<LogEntry> {
    if Terminal(end.status) then [LogEntry(now, k.account, k.window, end.task, end.status)] else WaitingLine(k, now)
  }

  /** The service is going down and the executor noticed: the plan stays running, to be resumed. */
  predicate Interrupted(report: Report, stopping: bool) {
    stopping && report == Errored(Cancelled)
  }

  ghost predicate SameOthers(plans: map<PlanKey, Plan>, plans': map<PlanKey, Plan>, k: PlanKey) {
    plans'.Keys == plans.Keys && forall j :: j in plans && j != k ==> plans'[j] == plans[j]
  }

  /** What one undisturbed execution of a due plan leaves behind. */
  ghost predicate EndedBy(u: View, v: View, k: PlanKey, report: Option<Report>)
    requires k in u.plans
  {
    var end := EndOf(u.plans[k], report, v.clock);
    v.plans == u.plans[k := end] && v.logs == u.logs + LineOf(k, end, v.clock)
  }

  /** The plan of k is ended by a report, the executor's own work being done. */
  ghost predicate Concluded(u: View, v: View, k: PlanKey, report: Option<Report>, ok: bool)
    requires k in u.plans
  {
    && Onward(u, v, ok) && v.active == u.active - {k} && v.tick == u.tick && v.wire == u.wire && v.book == u.book
    && v.history == u.history && v.stopping == u.stopping && SameOthers(u.plans, v.plans, k)
    && (v.faults == u.faults ==> EndedBy(u, v, k, report))
  }

  /** Put off by an hour, then logged. */
  lemma DelayConcludes(u: View, m: View, v: View, k: PlanKey, report: Report, ok: bool)
    requires k in u.plans && EndsAs(report).None? && !SkipsForToday(u.clock)
    requires u.faults <= m.faults <= v.faults && (!ok ==> u.faults < m.faults)
    requires m.plans == if ok then u.plans[k := Postponed(u.plans[k], u.clock + HOUR)] else u.plans
    requires m == u.(plans := m.plans, active := u.active - {k}, faults := m.faults)
    requires v == m.(logs := v.logs, faults := v.faults)
    requires ok && v.faults == m.faults ==> v.logs == m.logs + WaitingLine(k, u.clock)
    ensures Concluded(u, v, k, Some(report), true)
  {}

  /** One execution of a begun plan. */
  ghost predicate Executed(u: View, v: View, k: PlanKey, ep: Episode, ok: bool)
    requires k in u.plans
  {
    && Onward(u, v, ok) && v.active == u.active - {k} && v.tick == u.tick
    && Acted(u, v, k, u.plans[k], ep) && SameOthers(u.plans, v.plans, k)
    && (v.faults == u.faults && !CutShort(ep, v.stopping) ==> EndedBy(u, v, k, ep.report))
  }

  /** The executor is at work: nothing of the plans or the log has changed yet. */
  ghost predicate Working(u: View, v: View) {
    && Onward(u, v, true) && v.plans == u.plans && v.logs == u.logs && v.active == u.active && v.tick == u.tick
  }

  lemma WorkThenClose(u: View, v: View, w: View, k: PlanKey, ep: Episode, ok: bool)
    requires k in u.plans && Working(u, v) && Acted(u, v, k, u.plans[k], ep) && ep.report.Some?
    requires if CutShort(ep, v.stopping) then !ok && w == v.(active := v.active - {k})
             else Concluded(v, w, k, ep.report, ok)
    ensures Executed(u, w, k, ep, ok)
  {}

  /** Marking the plan as running first makes no difference to how it ends. */
  lemma BeginThenExecute(u: View, v: View, w: View, k: PlanKey, ep: Episode, ok: bool)
    requires k in u.plans && u.active == map[] && v.active == map[k := Begun(u.plans[k])]
    requires v == u.(plans := u.plans[k := Begun(u.plans[k])], active := v.active, faults := v.faults)
    requires u.faults <= v.faults
    requires Executed(v, w, k, ep, ok)
    ensures Executed(u, w, k, ep, ok) && w.active == map[]
  {
    assert v.active - {k} == map[];
    if w.faults == u.faults && !CutShort(ep, w.stopping) {
      var end := EndOf(u.plans[k], ep.report, w.clock);
      assert EndOf(Begun(u.plans[k]), ep.report, w.clock) == end;
      assert v.plans[k := end] == u.plans[k := end];
    }
  }

  /**
   A claim plan completes exactly when the call returned, and then the claim itself is completed exactly when
   the returned record is: after an undisturbed call, when it was before, when the claim was granted, or when
   an unclear one shows in the count.
   */
  lemma CompletedPlanIsClaimIff(p: Plan, report: Report, now: int, c: Claims, d: Claims, id: ActionKey, calm: bool)
    requires id.kind.DailyClaim? && c.AllGuarded() && OneClaim(c, d, id, report, calm)
    ensures EndOf(p, Some(report), now).status.PlanCompleted? <==> report.Claimed?
    ensures report.Claimed? ==> (Done(d.DayOf(id)) <==> report.out.action.status.ActionCompleted?)
    ensures calm && Smooth(c, d, id) ==>
              var s, t := c.DayOf(id), d.DayOf(id);
              Done(t) <==>
                || Done(s)
                || (Open(s) && (Last(t.wire).reply.Granted?
                                || (!Last(t.wire).reply.Declined? && Last(t.looks) > t.looks[|s.looks|])))
                || (!Open(s) && s.rec.value.started && s.rec.value.claimBefore.Some?
                    && Last(t.looks) > s.rec.value.claimBefore.value)
  {
    if calm && Smooth(c, d, id) {
      CompletedIff(c.DayOf(id), d.DayOf(id), report.out);
    }
  }

  /**
   A draw plan completes exactly when the platform drew, and is skipped exactly when the count shown left
   nothing to draw or the account has to log in again.
   */
  lemma DrawPlanEnds(request: DrawRequest, log: seq<Event>, p: Plan, report: Report, now: int)
    requires Drawn(request, log, report)
    ensures var end := EndOf(p, Some(report), now).status;
            && (end.PlanCompleted? <==> Last(log).Draw? && Last(log).reply.Drew?)
            && (end.PlanSkipped? <==>
                  report == Errored(Reauth) || (Last(log).Look? && Last(log).shown.Some? && Last(log).shown.value <= 0))
            && (end.PlanCompleted? || end.PlanSkipped? || end.PlanFailed?)
  {}

  /** A check-in plan completes exactly on an award, and waits an hour exactly when it was not active enough in time. */
  lemma CheckinPlanEnds(p: Plan, report: Report, now: int)
    requires report.CheckedIn? || report.Errored?
    ensures var end := EndOf(p, Some(report), now);
            var late := BeijingHour(now) == 23 || BeijingHour(now) == 7;
            && (end.status.PlanCompleted? <==> report == CheckedIn(Awarded))
            && (end.status.PlanSkipped? <==>
                  || report == Errored(Reauth) || report == CheckedIn(NeedsReauth)
                  || (report == CheckedIn(NotActiveEnough) && late))
            && (report == CheckedIn(NotActiveEnough) && !late ==>
                  end == p.(status := PlanPending, plannedAt := now + 3_600_000_000_000))
            && (report != CheckedIn(NotActiveEnough) ==> end.plannedAt == p.plannedAt && Terminal(end.status))
  {
    SkipsExactlyAt23And7(now);
  }

  /** The first claim of a day, refused by the platform: the record fails, the plan completes. */
  lemma RefusedClaimCompletesPlan(p: Plan, now: int, key: IdemKey, shown: int)
    ensures var s := Day(None, 0, [], []);
            var failed := DeclinedWith(NewAction(key).(attempts := 1), shown);
            var out := ClaimOutcome(failed, false, 0, Some(shown));
            var t := Day(Some(failed), 1, [DailyClaim.Post(0, Declined)], [shown]);
            && ClaimCall(s, t, Ok(out)) && Handled(s, t, out) && failed.status.ActionFailed? && failed.retryable
            && EndOf(p, Some(Claimed(out)), now).status == PlanCompleted
  {
    var t := Day(Some(DeclinedWith(NewAction(key).(attempts := 1), shown)), 1, [DailyClaim.Post(0, Declined)], [shown]);
    assert t.wire[..0] == [];
  }

  ghost predicate IsSnapshot(list: seq<(PlanKey, Plan)>, plans: map<PlanKey, Plan>, date: int) {
    && (forall i :: 0 <= i < |list| ==> list[i].0 in plans && list[i].0.date == date && list[i].1 == plans[list[i].0])
    && (forall i, j :: 0 <= i < j < |list| ==> list[i].0 != list[j].0)
    && forall k :: k in plans && k.date == date ==> exists i :: 0 <= i < |list| && list[i].0 == k
  }

  /** No plan has three requests in what `after` adds to `before`. */
  ghost predicate AtMostTwice(before: seq<DrawRequest>, after: seq<DrawRequest>) {
    && before <= after
    && forall i, j, l :: |before| <= i < j < l < |after| ==> !(after[i].plan == after[j].plan == after[l].plan)
  }

  /** What `after` adds is not for the plans still to come, and only for plans that may fire. */
  ghost predicate SentSoFar(before: seq<DrawRequest>, after: seq<DrawRequest>, coming: seq<(PlanKey, Plan)>,
                            schedules: map<string, seq<Schedule>>, accounts: seq<string>) {
    && AtMostTwice(before, after)
    && forall i :: |before| <= i < |after| ==>
         MayFire(schedules, accounts, after[i].plan) && forall j :: 0 <= j < |coming| ==> after[i].plan != coming[j].0
  }

  ghost predicate DoneWith(plans: map<PlanKey, Plan>, k: PlanKey, p: Plan, now: int) {
    k in plans && !Due(plans[k], k, now) && plans[k].task == p.task
  }

  /** The report h, made for a plan p of key k, ends it as q. */
  ghost predicate EndsAt(h: Performance, k: PlanKey, p: Plan, q: Plan, when: int) {
    h.k == k && h.at <= when && Played(k, p, h.report, h.log) && q == EndOf(p, Some(h.report), when)
  }

  ghost predicate Ends(h: Performance, k: PlanKey, p: Plan, q: Plan) {
    exists when :: EndsAt(h, k, p, q, when)
  }

  /**
   How a due plan p of key k came to its end since the n-th report: one that may fire by a report its own
   executor made, any other skipped.
   */
  ghost predicate RanTo(n: nat, v: View, k: PlanKey, p: Plan, may: bool) {
    && k in v.plans
    && if may then exists i :: n <= i < |v.history| && Ends(v.history[i], k, p, v.plans[k])
       else v.plans[k] == p.(status := PlanSkipped)
  }

  /** What one plan of the snapshot came to: at most two draws and, undisturbed, nothing left to do. */
  ghost predicate Attended(u: View, v: View, k: PlanKey, p: Plan, now: int, may: bool, ok: bool) {
    && u.history <= v.history
    && (v.faults == u.faults && !v.stopping && Due(p, k, now) ==> RanTo(|u.history|, v, k, p, may))
    && Onward(u, v, ok) && v.active == map[] && v.tick == now
    && SameOthers(u.plans, v.plans, k) && (v.plans == u.plans || Due(p, k, now))
    && (exists n: nat :: Sent(u.wire, v.wire, k, n) && n <= 2 && (n > 0 ==> may))
    && (v.faults == u.faults && !v.stopping ==> DoneWith(v.plans, k, p, now))
  }

  /** How far the plans of the snapshot have been dealt with since u. */
  ghost predicate InProgress(u: View, v: View, list: seq<(PlanKey, Plan)>, i: nat, now: int) {
    && i <= |list| && v.plans.Keys == u.plans.Keys
    && (forall k :: k in v.plans && !Due(u.plans[k], k, now) ==> v.plans[k] == u.plans[k])
    && (forall j :: i <= j < |list| ==> list[j].0 in v.plans && v.plans[list[j].0] == list[j].1)
    && (v.faults == u.faults && !v.stopping ==> forall j :: 0 <= j < i ==> DoneWith(v.plans, list[j].0, list[j].1, now))
  }

  lemma OneMoreDone(s: View, u: View, v: View, list: seq<(PlanKey, Plan)>, i: nat, now: int, may: bool, ok: bool)
    requires IsSnapshot(list, s.plans, BeijingDate(now)) && i < |list| && s.faults <= u.faults
    requires InProgress(s, u, list, i, now)
    requires Attended(u, v, list[i].0, list[i].1, now, may, ok)
    ensures InProgress(s, v, list, i + 1, now)
  {}

  lemma SentOnTop(s: View, u: View, v: View, coming: seq<(PlanKey, Plan)>, now: int, ok: bool,
                  schedules: map<string, seq<Schedule>>, accounts: seq<string>)
    requires coming != [] && forall j :: 0 < j < |coming| ==> coming[j].0 != coming[0].0
    requires SentSoFar(s.wire, u.wire, coming, schedules, accounts)
    requires Attended(u, v, coming[0].0, coming[0].1, now, MayFire(schedules, accounts, coming[0].0), ok)
    ensures SentSoFar(s.wire, v.wire, coming[1..], schedules, accounts)
  {
    assert forall i :: 0 <= i < |u.wire| ==> v.wire[i] == u.wire[i];
    assert forall i :: |s.wire| <= i < |u.wire| ==> u.wire[i].plan != coming[0].0;
  }

  ghost predicate AllRan(s: View, v: View, list: seq<(PlanKey, Plan)>, i: nat, now: int,
                         schedules: map<string, seq<Schedule>>, accounts: seq<string>)
    requires i <= |list|
  {
    && s.history <= v.history
    && (v.faults == s.faults && !v.stopping ==>
          forall j :: 0 <= j < i && Due(list[j].1, list[j].0, now) ==>
            RanTo(|s.history|, v, list[j].0, list[j].1, MayFire(schedules, accounts, list[j].0)))
  }

  lemma StillRan(n: nat, u: View, v: View, k: PlanKey, p: Plan, may: bool)
    requires RanTo(n, u, k, p, may) && u.history <= v.history && k in v.plans && v.plans[k] == u.plans[k]
    ensures RanTo(n, v, k, p, may)
  {
    if may {
      var i :| n <= i < |u.history| && Ends(u.history[i], k, p, u.plans[k]);
      assert v.history[i] == u.history[i];
    }
  }

  lemma OneMoreRan(s: View, u: View, v: View, list: seq<(PlanKey, Plan)>, i: nat, now: int, ok: bool,
                   schedules: map<string, seq<Schedule>>, accounts: seq<string>)
    requires IsSnapshot(list, s.plans, BeijingDate(now)) && i < |list| && s.faults <= u.faults
    requires InProgress(s, u, list, i, now) && AllRan(s, u, list, i, now, schedules, accounts)
    requires Attended(u, v, list[i].0, list[i].1, now, MayFire(schedules, accounts, list[i].0), ok)
    ensures AllRan(s, v, list, i + 1, now, schedules, accounts)
  {
    if v.faults == s.faults && !v.stopping {
      forall j | 0 <= j <= i && Due(list[j].1, list[j].0, now)
        ensures RanTo(|s.history|, v, list[j].0, list[j].1, MayFire(schedules, accounts, list[j].0))
      {
        if j < i {
          StillRan(|s.history|, u, v, list[j].0, list[j].1, MayFire(schedules, accounts, list[j].0));
        }
      }
    }
  }

  /** The loop over the snapshot before its i-th plan. */
  ghost predicate Through(s: View, v: View, list: seq<(PlanKey, Plan)>, i: nat, now: int, ok: bool,
                          schedules: map<string, seq<Schedule>>, accounts: seq<string>) {
    && Onward(s, v, ok) && v.active == map[] && v.tick == now && InProgress(s, v, list, i, now)
    && AllRan(s, v, list, i, now, schedules, accounts)
    && SentSoFar(s.wire, v.wire, list[i..], schedules, accounts)
  }

  lemma StoppedThrough(s: View, u: View, v: View, list: seq<(PlanKey, Plan)>, i: nat, now: int, ok: bool,
                       schedules: map<string, seq<Schedule>>, accounts: seq<string>)
    requires Through(s, u, list, i, now, ok, schedules, accounts)
    requires v == u.(stopping := v.stopping) && (u.stopping ==> v.stopping)
    ensures Through(s, v, list, i, now, ok, schedules, accounts)
  {
    if v.faults == s.faults && !v.stopping {
      assert v == u;
    }
  }

  lemma OneMoreThrough(s: View, u: View, v: View, list: seq<(PlanKey, Plan)>, i: nat, now: int, was: bool, ok: bool,
                       schedules: map<string, seq<Schedule>>, accounts: seq<string>)
    requires IsSnapshot(list, s.plans, BeijingDate(now)) && i < |list|
    requires Through(s, u, list, i, now, was, schedules, accounts)
    requires Attended(u, v, list[i].0, list[i].1, now, MayFire(schedules, accounts, list[i].0), ok)
    ensures Through(s, v, list, i + 1, now, was && ok, schedules, accounts)
  {
    OneMoreDone(s, u, v, list, i, now, MayFire(schedules, accounts, list[i].0), ok);
    OneMoreRan(s, u, v, list, i, now, ok, schedules, accounts);
    SentOnTop(s, u, v, list[i..], now, ok, schedules, accounts);
    assert list[i..][1..] == list[i + 1..];
  }

  /** What the tick does with the plans of the day. */
  ghost predicate WorkedOff(u: View, v: View, now: int, ok: bool, schedules: map<string, seq<Schedule>>,
                            accounts: seq<string>) {
    && Onward(u, v, ok) && v.active == map[] && v.tick == now && v.plans.Keys == u.plans.Keys
    && SentSoFar(u.wire, v.wire, [], schedules, accounts)
    && (forall k :: k in v.plans && !Due(u.plans[k], k, now) ==> v.plans[k] == u.plans[k])
    && (v.faults == u.faults && !v.stopping ==>
          NothingDue(v.plans, now) && forall k :: k in v.plans ==> v.plans[k].task == u.plans[k].task)
    && u.history <= v.history
    && (v.faults == u.faults && !v.stopping ==> EachRan(u.plans, |u.history|, v, now, schedules, accounts))
  }

  /** Every plan due at `now` came to its end. */
  ghost predicate EachRan(plans: map<PlanKey, Plan>, n: nat, v: View, now: int, schedules: map<string, seq<Schedule>>,
                          accounts: seq<string>) {
    forall k :: k in plans && Due(plans[k], k, now) ==> RanTo(n, v, k, plans[k], MayFire(schedules, accounts, k))
  }

  lemma ThroughIsWorkedOff(s: View, v: View, list: seq<(PlanKey, Plan)>, i: nat, now: int, ok: bool,
                           schedules: map<string, seq<Schedule>>, accounts: seq<string>)
    requires IsSnapshot(list, s.plans, BeijingDate(now)) && Through(s, v, list, i, now, ok, schedules, accounts)
    requires i == |list| || v.stopping
    ensures WorkedOff(s, v, now, ok, schedules, accounts)
    ensures v.stopping ==> WorkedOff(s, v, now, false, schedules, accounts)
  {
    if v.faults == s.faults && !v.stopping {
      forall k | k in v.plans ensures !Due(v.plans[k], k, now) && v.plans[k].task == s.plans[k].task {
        if k.date == BeijingDate(now) {
          var j :| 0 <= j < |list| && list[j].0 == k;
        }
      }
      forall k | k in s.plans && Due(s.plans[k], k, now)
        ensures RanTo(|s.history|, v, k, s.plans[k], MayFire(schedules, accounts, k))
      {
        var j :| 0 <= j < |list| && list[j].0 == k;
      }
    }
  }

  /** What a tick comes to after it has read the clock and pruned. */
  ghost predicate DayDone(u: View, v: View, now: int, ok: bool, schedules: map<string, seq<Schedule>>,
                          accounts: seq<string>) {
    && Onward(u, v, ok) && v.active == map[] && v.tick == now && u.history <= v.history
    && SentSoFar(u.wire, v.wire, [], schedules, accounts)
    && (forall k :: k in u.plans && Terminal(u.plans[k].status) ==> k in v.plans && v.plans[k] == u.plans[k])
    && (v.faults == u.faults && !v.stopping ==>
          && NothingDue(v.plans, now) && EachRan(u.plans, |u.history|, v, now, schedules, accounts)
          && EveryoneServed(v, now, schedules, accounts))
  }

  ghost predicate EveryoneServed(v: View, now: int, schedules: map<string, seq<Schedule>>, accounts: seq<string>) {
    forall a :: a in accounts && a != "" ==> AllServed(schedules, v.plans, BeijingDate(now), now, a)
  }

  /** A day that could not be planned. */
  lemma NotPlanned(u: View, v: View, now: int, schedules: map<string, seq<Schedule>>, accounts: seq<string>)
    requires v == u.(faults := v.faults) && u.faults < v.faults && u.active == map[] && u.tick == now
    ensures DayDone(u, v, now, false, schedules, accounts)
  {}

  lemma PlannedThenWorked(u: View, m: View, v: View, now: int, ok: bool, schedules: map<string, seq<Schedule>>,
                          accounts: seq<string>)
    requires m == u.(plans := m.plans, faults := m.faults) && u.faults <= m.faults
    requires forall k :: k in u.plans ==> k in m.plans && m.plans[k] == u.plans[k]
    requires m.faults == u.faults ==> EveryoneServed(m, now, schedules, accounts)
    requires WorkedOff(m, v, now, ok, schedules, accounts)
    ensures DayDone(u, v, now, ok, schedules, accounts)
  {
    if v.faults == u.faults && !v.stopping {
      forall k | k in u.plans && Due(u.plans[k], k, now)
        ensures RanTo(|u.history|, v, k, u.plans[k], MayFire(schedules, accounts, k))
      {
        assert m.plans[k] == u.plans[k];
      }
      forall a | a in accounts && a != "" ensures AllServed(schedules, v.plans, BeijingDate(now), now, a) {
        StaysServed(m.plans, v.plans, schedules, BeijingDate(now), now, a);
      }
    }
  }

  lemma ExecutedIsAttended(u: View, v: View, k: PlanKey, ep: Episode, now: int, may: bool, ok: bool)
    requires k in u.plans && Due(u.plans[k], k, now) && Executed(u, v, k, ep, ok)
    requires u.active == map[] && u.tick == now <= v.clock
    requires (ep.report.Some? ==> may) && (may && v.faults == u.faults ==> ep.report.Some?)
    ensures Attended(u, v, k, u.plans[k], now, may, ok)
  {
    if ep.report.Some? && u.plans[k].task.Draw? {
      DrawnRequests(DrawRequest(k, u.plans[k].idemKey), ep.log, ep.report.value);
    }
    assert Sent(u.wire, v.wire, k, |Requests(ep.log)|);
    assert v.active == map[];
    EndIsNotDue(u.plans[k], k, ep.report, v.clock, now);
    if v.faults == u.faults && !v.stopping && may {
      assert EndsAt(Last(v.history), k, u.plans[k], v.plans[k], v.clock);
      assert Ends(v.history[|u.history|], k, u.plans[k], v.plans[k]);
    }
  }

  /** An undisturbed execution leaves nothing due. */
  lemma EndIsNotDue(p: Plan, k: PlanKey, report: Option<Report>, now: int, tick: int)
    requires tick <= now
    ensures !Due(EndOf(p, report, now), k, tick) && EndOf(p, report, now).task == p.task
  {}

  class Scheduler {
    var store: Store
    var accounts: seq<string>  // the enabled accounts, in registry order
    var clock: int
    var stopping: bool
    ghost var spec: Sched
    ghost var troubles: nat    // random draws and account listings that failed so far
    ghost var traces: map<ActionKey, Trace>  // the calls and claims made under each record key
    ghost var history: seq<Performance>      // every report an executor made

    constructor (store: Store, accounts: seq<string>, now: int)
      requires store.Valid() && store.plans == map[] && store.actions == map[] && SchedulesSound(store.schedules)
      requires forall a :: a in accounts ==> Keys.NoColon(a)
      ensures Valid() && this.store == store && this.accounts == accounts && !stopping && spec == Empty(now)
    {
      this.store, this.accounts, clock, stopping := store, accounts, now, false;
      spec, troubles, traces, history := Empty(now), 0, map[], [];
    }

    ghost predicate Linked()
      reads this, store
    {
      && spec.plans == store.plans && spec.now == clock
      && (forall k :: k in spec.issued ==> spec.issued[k] < store.nextKey)
      && forall k :: k in store.plans ==> Named(k)
    }

    /** The claim records and what was done under their keys. */
    ghost function Book(): Claims
      reads this`store, this`traces, store`actions
    {
      Claims(store.actions, traces)
    }

    /** What planning and executing plans leave as it is. */
    ghost predicate Sound()
      reads this`store, this`accounts, this`traces, store`actions, store`schedules
    {
      && SchedulesSound(store.schedules) && (forall a :: a in accounts ==> Keys.NoColon(a))
      && Book().AllGuarded()
    }

    ghost predicate Valid()
      reads this, store, store.logs
    {
      store.Valid() && Reachable(spec) && Linked() && Sound()
    }

    ghost function Faults(): nat
      reads this, store
    {
      troubles + store.faults
    }

    ghost method Follow(step: Step)
      requires Reachable(spec) && Enabled(spec, step)
      modifies this`spec
      ensures Reachable(spec) && spec == Apply(old(spec), step)
    {
      ReachableStep(spec, step);
      spec := Apply(spec, step);
    }

    ghost function Look(): View
      reads this, store, store.logs
      requires store.Shaped()
    {
      View(store.plans, store.Memory().logs, Book(), spec.active, spec.tick, spec.wire, history, clock, stopping,
           Faults())
    }

    /** A crash, and the start of the process that follows it. */
    method Restart()
      requires Valid()
      modifies this`store, this`stopping, this`spec
      ensures Valid() && fresh(store) && !stopping
      ensures spec == old(spec).(active := map[]) && store.plans == old(store.plans)
    {
      Follow(Crash);
      store := new Store.Open(store.disk, store.nextKey);
      stopping := false;
      forall a | a in store.schedules ensures Acceptable(store.schedules[a]) {
        assert store.schedules[a] == SchedulesOf(store.Memory(), a) == old(SchedulesOf(store.Memory(), a));
      }
    }

    method Now() returns (now: int)
      requires Valid()
      modifies this`clock, this`spec
      ensures Valid() && now == clock >= old(clock) && spec == old(spec).(now := now)
    {
      var t: int := *;
      if t > clock {
        clock := t;
      }
      now := clock;
      Follow(Advance(now));
    }

    /** Whether the service's context has been cancelled by now. */
    method Stopped() returns (b: bool)
      modifies this`stopping
      ensures b == stopping && (old(stopping) ==> stopping)
    {
      b := *;
      b := b || stopping;
      stopping := b;
    }

    // ----- the executors -----

    /** The protocol's side of the requests an executor sent under the key of its plan. */
    ghost method FollowDraws(k: PlanKey, sent: seq<DrawRequest>)
      requires Reachable(spec) && k in spec.active && (sent != [] ==> spec.active[k].task.Draw?)
      requires forall i :: 0 <= i < |sent| ==> sent[i] == DrawRequest(k, spec.active[k].idemKey)
      modifies this`spec
      ensures Reachable(spec) && spec == old(spec).(wire := old(spec.wire) + sent)
    {
      if sent == [] {
        assert spec.wire + sent == spec.wire;
      } else {
        var front := sent[..|sent| - 1];
        assert sent == front + [Last(sent)];
        FollowDraws(k, front);
        Follow(SendDraw(k));
        assert old(spec.wire) + front + [Last(sent)] == old(spec.wire) + sent;
      }
    }

    /** One report of the executor, kept in the history. */
    method Execute(k: PlanKey, plan: Plan) returns (report: Report, ghost ep: Episode)
      requires Valid() && k in spec.active && plan == spec.active[k] && k.account != ""
      modifies this`clock, this`spec, this`traces, this`history
      modifies store`actions, store`nextKey, store`disk, store`faults
      ensures Valid() && Working(old(Look()), Look()) && stopping == old(stopping)
      ensures ep.report == Some(report) && Acted(old(Look()), Look(), k, plan, ep)
    {
      ghost var log;
      report, log := Play(k, plan);
      history := history + [Performance(k, report, log, clock)];
      ep := Episode(Some(report), log, clock);
    }

    /** The executor of the plan's task; the check-in call has its own protocol. */
    method Play(k: PlanKey, plan: Plan) returns (report: Report, ghost log: seq<Event>)
      requires Valid() && k in spec.active && plan == spec.active[k] && k.account != ""
      modifies this`clock, this`spec, this`traces, store`actions, store`nextKey, store`disk, store`faults
      ensures Valid() && Working(old(Look()), Look()) && stopping == old(stopping)
      ensures spec.wire == old(spec.wire) + Requests(log) && Played(k, plan, report, log)
      ensures ClaimedFor(plan.task, old(Book()), Book(), k.account, report, clock, Faults() == old(Faults()))
    {
      log := [];
      match plan.task {
        case Draw =>
          report, log := RunDraw(k, plan);
        case Claim =>
          report := RunClaim(k.account);
          assert spec.wire + Requests([]) == spec.wire;
        case AutoCheckin =>
          report := Executors.Checkin();
          assert spec.wire + Requests([]) == spec.wire;
      }
    }

    /** A draw under the key of its plan. */
    method RunDraw(k: PlanKey, plan: Plan) returns (report: Report, ghost log: seq<Event>)
      requires Valid() && k in spec.active && plan == spec.active[k] && plan.task.Draw?
      modifies this`spec
      ensures Valid() && spec == old(spec).(wire := old(spec.wire) + Requests(log))
      ensures Drawn(DrawRequest(k, plan.idemKey), log, report)
    {
      var call := new DrawCall();
      report := call.DrawAvailable(k, plan.idemKey);
      log := call.log;
      DrawnRequests(DrawRequest(k, plan.idemKey), log, report);
      FollowDraws(k, Requests(log));
    }

    /** The daily claim of the account, for the date it is when the call starts. */
    method RunClaim(account: string) returns (report: Report)
      requires Valid() && account != ""
      modifies this`clock, this`spec, this`traces, store`actions, store`nextKey, store`disk, store`faults
      ensures Valid() && Working(old(Look()), Look()) && spec.wire == old(spec.wire)
      ensures OneClaim(old(Book()), Book(), ActionKey(BeijingDate(clock), ActionKind.DailyClaim, account), report,
                       Faults() == old(Faults()))
    {
      var now := Now();
      ghost var trace;
      report, trace := ClaimFor(ClaimKey(BeijingDate(now), account), store, traces);
      traces := traces[ClaimKey(BeijingDate(now), account) := trace];
    }

    // ----- ending a plan -----

    /** The terminal status of a plan, durable or not; the executor is done with it either way. */
    method End(k: PlanKey, status: PlanStatus) returns (r: Result<Plan>)
      requires Valid() && k in spec.active && k in store.plans && Terminal(status)
      modifies this`spec, store`plans, store`disk, store`faults
      ensures Valid() && Faults() >= old(Faults()) && (r.Err? ==> Faults() > old(Faults()))
      ensures r.Ok? ==> r.value == old(store.plans)[k].(status := status)
      ensures Look() == old(Look()).(plans := if r.Ok? then old(store.plans)[k := r.value] else old(store.plans),
                                     active := old(spec.active) - {k}, faults := Faults())
    {
      r := store.FinishPlan(k, status);
      if r.Ok? {
        Follow(Finish(k, status));
      } else {
        Follow(Leave(k));
      }
    }

    /** One line of the runtime log; a line without account or window is refused. */
    method Log(e: LogEntry) returns (ok: bool)
      requires Valid()
      modifies store`disk, store`faults, store`logs, store`logLen, store.logs
      ensures Valid() && (store.logs == old(store.logs) || fresh(store.logs)) && Faults() >= old(Faults())
      ensures !ok && e.account != "" && e.window != "" ==> Faults() > old(Faults())
      ensures e.account == "" || e.window == "" ==> !ok
      ensures Look() == old(Look()).(logs := old(Look().logs) + if ok then [e] else [], faults := Faults())
    {
      ok := store.AppendLog(e);
    }

    /** The terminal status and its log line. */
    method Settle(k: PlanKey, status: PlanStatus, ghost report: Option<Report>) returns (ok: bool)
      requires Valid() && k in spec.active && k in store.plans && Terminal(status)
      requires EndOf(store.plans[k], report, clock) == store.plans[k].(status := status)
      modifies this`spec, store`plans, store`disk, store`faults, store`logs, store`logLen, store.logs
      ensures Valid() && (store.logs == old(store.logs) || fresh(store.logs))
      ensures Concluded(old(Look()), Look(), k, report, ok)
    {
      var finished := End(k, status);
      if finished.Err? {
        return false;
      }
      ok := Log(LogOf(k, clock, finished.value.task, finished.value.status));
    }

    /** Waits an hour, or gives up for the day. */
    method PostponeCheckin(k: PlanKey, ghost report: Report)
      requires Valid() && k in spec.active && k in store.plans && !Terminal(store.plans[k].status)
      requires EndsAs(report).None?
      modifies this`clock, this`spec, store`plans, store`disk, store`faults, store`logs, store`logLen, store.logs
      ensures Valid() && (store.logs == old(store.logs) || fresh(store.logs))
      ensures Concluded(old(Look()), Look(), k, Some(report), true)
    {
      var now := Now();
      if SkipsForToday(now) {
        var _ := Settle(k, PlanSkipped, Some(report));
      } else {
        Delay(k, now, report);
      }
    }

    /** Puts the plan off by an hour. */
    method PutOff(k: PlanKey, now: int) returns (ok: bool)
      requires Valid() && k in spec.active && k in store.plans && !Terminal(store.plans[k].status)
      requires now == clock && !SkipsForToday(now)
      modifies this`spec, store`plans, store`disk, store`faults
      ensures Valid() && Faults() >= old(Faults()) && (!ok ==> Faults() > old(Faults()))
      ensures var was := old(store.plans);
              Look() == old(Look()).(plans := if ok then was[k := Postponed(was[k], now + HOUR)] else was,
                                     active := old(spec.active) - {k}, faults := Faults())
    {
      ok := store.PostponePlan(k, now + HOUR);
      if ok {
        Follow(Postpone(k));
      } else {
        Follow(Leave(k));
      }
    }

    method Delay(k: PlanKey, now: int, ghost report: Report)
      requires Valid() && k in spec.active && k in store.plans && !Terminal(store.plans[k].status)
      requires EndsAs(report).None?
      requires now == clock && !SkipsForToday(now)
      modifies this`spec, store`plans, store`disk, store`faults, store`logs, store`logLen, store.logs
      ensures Valid() && (store.logs == old(store.logs) || fresh(store.logs))
      ensures Concluded(old(Look()), Look(), k, Some(report), true)
    {
      var ok := PutOff(k, now);
      ghost var m := Look();
      if ok {
        LogWaiting(k, now);
      }
      DelayConcludes(old(Look()), m, Look(), k, report, ok);
    }

    /** The log line of a postponement, with the coordinates read back from the plan's key string. */
    method LogWaiting(k: PlanKey, now: int)
      requires Valid() && Named(k)
      modifies store`disk, store`faults, store`logs, store`logLen, store.logs
      ensures Valid() && (store.logs == old(store.logs) || fresh(store.logs)) && Faults() >= old(Faults())
      ensures Look() == old(Look()).(logs := Look().logs, faults := Faults())
      ensures Faults() == old(Faults()) ==> Look().logs == old(Look().logs) + WaitingLine(k, now)
    {
      var day: string :| Keys.NoColon(day);
      var name := Keys.Join(day, k.window, k.account);
      Keys.CoordinatesReadBack(day, k.window, k.account);
      var _ := Log(LogEntry(now, Keys.PlanAccountID(name), Keys.PlanWindowID(name), AutoCheckin, PlanSkipped));
    }

    /** Ends a plan by what its executor reported, or skips it when there is no report. */
    method EndTask(k: PlanKey, report: Option<Report>) returns (ok: bool)
      requires Valid() && k in spec.active && k in store.plans && !Terminal(store.plans[k].status)
      modifies this`clock, this`spec, store`plans, store`disk, store`faults, store`logs, store`logLen, store.logs
      ensures Valid() && (store.logs == old(store.logs) || fresh(store.logs))
      ensures Concluded(old(Look()), Look(), k, report, ok)
    {
      var _ := Now();
      var status := if report.None? then Some(PlanSkipped) else EndsAs(report.value);
      if status.Some? {
        ok := Settle(k, status.value, report);
      } else {
        PostponeCheckin(k, report.value);
        ok := true;
      }
    }

    /** The service stops: the plan stays running, to be resumed by a later process. */
    method Abandon(k: PlanKey)
      requires Valid() && k in spec.active
      modifies this`spec
      ensures Valid() && Look() == old(Look()).(active := old(spec.active) - {k})
    {
      Follow(Leave(k));
    }

    // ----- one due plan -----

    /** Runs the executor of a plan already begun and ends the plan by its report. */
    method RunTask(k: PlanKey, plan: Plan) returns (ok: bool, ghost ep: Episode)
      requires Valid() && k in spec.active && k in store.plans && plan == spec.active[k] == store.plans[k]
      requires !Terminal(plan.status)
      modifies this`clock, this`stopping, this`spec, this`traces, this`history
      modifies store`actions, store`nextKey, store`plans, store`disk, store`faults, store`logs, store`logLen, store.logs
      ensures Valid() && (store.logs == old(store.logs) || fresh(store.logs))
      ensures ep.report.Some? && Executed(old(Look()), Look(), k, ep, ok)
    {
      var report: Report;
      report, ep := Execute(k, plan);
      var stopped := Stopped();
      ghost var v := Look();
      if report == Errored(Cancelled) && stopped {
        Abandon(k);
        ok := false;
      } else {
        ok := EndTask(k, Some(report));
      }
      WorkThenClose(old(Look()), v, Look(), k, ep, ok);
    }

    /** Skips a plan that must not fire, runs the task of one that may. */
    method RunBegun(k: PlanKey, plan: Plan) returns (ok: bool, ghost ep: Episode)
      requires Valid() && k in spec.active && k in store.plans && plan == spec.active[k] == store.plans[k]
      requires !Terminal(plan.status)
      modifies this`clock, this`stopping, this`spec, this`traces, this`history
      modifies store`actions, store`nextKey, store`plans, store`disk, store`faults, store`logs, store`logLen, store.logs
      ensures Valid() && (store.logs == old(store.logs) || fresh(store.logs))
      ensures ep.report.Some? <==> MayFire(store.schedules, accounts, k)
      ensures Executed(old(Look()), Look(), k, ep, ok)
    {
      var found := FindSchedule(store.schedules, k);
      if k.account in accounts && found {
        ok, ep := RunTask(k, plan);
      } else {
        ok := EndTask(k, None);
        ep := Episode(None, [], clock);
      }
    }

    /** Marks the plan running; None when it has ended before. */
    method Enter(k: PlanKey) returns (r: Result<Option<Plan>>)
      requires Valid() && k in store.plans && k !in spec.active && k.date == BeijingDate(spec.tick)
      requires store.plans[k].plannedAt <= spec.tick
      modifies this`spec, store`plans, store`disk, store`faults
      ensures Valid() && store.faults >= old(store.faults)
      ensures r.Err? ==> store.faults > old(store.faults) && !Terminal(old(store.plans)[k].status)
      ensures r.Err? ==> Look() == old(Look()).(faults := Faults()) && spec == old(spec)
      ensures r.Ok? ==> (r.value.None? <==> Terminal(old(store.plans)[k].status))
      ensures r.Ok? && r.value.None? ==> Look() == old(Look()).(faults := Faults()) && spec == old(spec)
      ensures r.Ok? && r.value.Some? ==>
                && r.value.value == Begun(old(store.plans)[k])
                && Look() == old(Look()).(plans := old(store.plans)[k := r.value.value], faults := Faults(),
                                          active := old(spec.active)[k := r.value.value])
    {
      var begun := store.BeginPlan(k);
      if begun.Err? {
        return Err;
      }
      if !begun.value.1 {
        return Ok(None);
      }
      Follow(Begin(k));
      return Ok(Some(begun.value.0));
    }

    /** One due plan, under its lock: at most two draw requests, both under its key, and never twice to the end. */
    method ExecutePlan(k: PlanKey) returns (ok: bool, ghost ep: Episode)
      requires Valid() && k in store.plans
      requires spec.active == map[] && k.date == BeijingDate(spec.tick) && store.plans[k].plannedAt <= spec.tick
      modifies this`clock, this`stopping, this`spec, this`traces, this`history
      modifies store`actions, store`nextKey, store`plans, store`disk, store`faults, store`logs, store`logLen, store.logs
      ensures Valid() && spec.active == map[] && (store.logs == old(store.logs) || fresh(store.logs))
      ensures ep.report.Some? ==> !Terminal(old(store.plans)[k].status) && MayFire(store.schedules, accounts, k)
      ensures Terminal(old(store.plans)[k].status) ==>
                ok && Look() == old(Look()).(faults := Faults()) && spec == old(spec)
      ensures !Terminal(old(store.plans)[k].status) ==> Executed(old(Look()), Look(), k, ep, ok)
      ensures !Terminal(old(store.plans)[k].status) && Faults() == old(Faults())
              && MayFire(store.schedules, accounts, k) ==>
                ep.report.Some?
    {
      var begun := Enter(k);
      if begun.Err? || begun.value.None? {
        return begun.Ok?, Episode(None, [], clock);
      }
      ghost var v := Look();
      ok, ep := RunBegun(k, begun.value.value);
      BeginThenExecute(old(Look()), v, Look(), k, ep, ok);
    }

    // ----- planning the day -----

    /** Plans the day: every enabled entry of every enabled account is served, in one write. */
    method EnsureToday(date: int, now: int) returns (ok: bool)
      requires Valid() && spec.tick == now && date == BeijingDate(now)
      modifies this`troubles, this`spec, store`plans, store`nextKey, store`disk, store`faults
      ensures Valid() && Faults() >= old(Faults())
      ensures Look() == old(Look()).(plans := store.plans, faults := Faults())
      ensures store.faults >= old(store.faults) && troubles >= old(troubles)
      ensures !ok ==> Faults() > old(Faults()) && store.plans == old(store.plans)
      ensures forall k :: k in old(store.plans) ==> k in store.plans && store.plans[k] == old(store.plans)[k]
      ensures forall k :: k in store.plans && k !in old(store.plans) ==>
                && store.plans[k].status == PlanPending
                && Wanted(store.schedules, accounts, date, now, k, store.plans[k].task, store.plans[k].plannedAt)
      // nothing is written when nothing is missing
      ensures ok && store.plans == old(store.plans) ==> store.disk == old(store.disk)
      ensures Faults() == old(Faults()) ==>
                EveryoneServed(Look(), now, store.schedules, accounts)
    {
      var listed: bool := *;
      if !listed {
        troubles := troubles + 1;
        return false;
      }
      var missing := Missing(date, now);
      ok := |missing| == 0;
      if |missing| > 0 {
        assert missing[0] in missing;
        ok := PutMissing(missing, date, now);
      }
    }

    /** The plans the day still needs, as far as the random source allows. */
    method Missing(date: int, now: int) returns (missing: seq<PlanRequest>)
      requires SchedulesSound(store.schedules)
      modifies this`troubles
      ensures troubles >= old(troubles)
      ensures AllWanted(store.schedules, accounts, date, now, missing) && OneClaimEach(missing, store.plans, date)
      ensures troubles == old(troubles) ==> forall a :: a in accounts && a != "" ==>
                AllCovered(store.schedules, store.plans, missing, date, now, a)
                && (missing == [] ==> AllServed(store.schedules, store.plans, date, now, a))
    {
      var dice := new Dice();
      missing := CollectMissing(store.plans, store.schedules, accounts, date, now, dice);
      troubles := troubles + dice.failures;
    }

    /** Stores the requested plans in one write. */
    method PutMissing(missing: seq<PlanRequest>, date: int, now: int) returns (ok: bool)
      requires Valid() && spec.tick == now && date == BeijingDate(now)
      requires AllWanted(store.schedules, accounts, date, now, missing) && OneClaimEach(missing, store.plans, date)
      modifies this`spec, store`plans, store`nextKey, store`disk, store`faults
      ensures Valid() && spec.active == old(spec.active) && spec.wire == old(spec.wire) && spec.tick == now
      ensures store.faults >= old(store.faults)
      ensures !ok ==> store.faults > old(store.faults) && store.plans == old(store.plans)
      ensures forall k :: k in old(store.plans) ==> k in store.plans && store.plans[k] == old(store.plans)[k]
      ensures forall k :: k in store.plans && k !in old(store.plans) ==>
                && store.plans[k].status == PlanPending
                && Wanted(store.schedules, accounts, date, now, k, store.plans[k].task, store.plans[k].plannedAt)
      ensures ok ==> forall i :: 0 <= i < |missing| ==> missing[i].key in store.plans
      ensures ok ==> forall a :: AllCovered(store.schedules, old(store.plans), missing, date, now, a) ==>
                                   AllServed(store.schedules, store.plans, date, now, a)
    {
      ghost var before, first := store.plans, store.nextKey;
      ok := store.EnsurePlans(missing);
      if ok {
        NewPlansCreatable(spec, missing, store.plans, store.schedules, accounts, now, first, store.nextKey);
        spec := CreateAll(spec, store.plans, store.nextKey);
        forall a | AllCovered(store.schedules, before, missing, date, now, a)
          ensures AllServed(store.schedules, store.plans, date, now, a)
        {
          CoveredIsServed(missing, before, store.plans, store.schedules, accounts, date, now, first, store.nextKey, a);
        }
      }
    }

    // ----- a tick -----

    /** A snapshot of the plans of one date; the order they come in does not matter here. */
    method PlansOf(date: int) returns (list: seq<(PlanKey, Plan)>)
      ensures IsSnapshot(list, store.plans, date)
    {
      list := [];
      var rest := set k | k in store.plans && k.date == date;
      while rest != {}
        invariant rest <= store.plans.Keys && forall k :: k in rest ==> k.date == date
        invariant forall i :: 0 <= i < |list| ==>
                    list[i].0 in store.plans && list[i].0 !in rest && list[i].0.date == date
                    && list[i].1 == store.plans[list[i].0]
        invariant forall i, j :: 0 <= i < j < |list| ==> list[i].0 != list[j].0
        invariant forall k :: k in store.plans && k.date == date && k !in rest ==>
                    exists i :: 0 <= i < |list| && list[i].0 == k
      {
        var k :| k in rest;
        ghost var before := list;
        list := list + [(k, store.plans[k])];
        rest := rest - {k};
        forall j | j in store.plans && j.date == date && j !in rest
          ensures exists i :: 0 <= i < |list| && list[i].0 == j
        {
          if j == k {
            assert list[|before|].0 == k;
          } else {
            var i :| 0 <= i < |before| && before[i].0 == j;
            assert list[i].0 == j;
          }
        }
      }
    }

    /** One plan of the snapshot: run when it is due. */
    method RunIfDue(k: PlanKey, p: Plan, now: int) returns (ok: bool)
      requires Valid()
      requires spec.active == map[] && spec.tick == now && k in store.plans && store.plans[k] == p
               && k.date == BeijingDate(now)
      modifies this`clock, this`stopping, this`spec, this`traces, this`history
      modifies store`actions, store`nextKey, store`plans, store`disk, store`faults, store`logs, store`logLen, store.logs
      ensures Valid() && (store.logs == old(store.logs) || fresh(store.logs))
      ensures Attended(old(Look()), Look(), k, p, now, MayFire(store.schedules, accounts, k), ok)
    {
      ok := true;
      if p.plannedAt <= now && !Terminal(p.status) {
        ghost var ep;
        ok, ep := ExecutePlan(k);
        ReachableInv(spec);
        ExecutedIsAttended(old(Look()), Look(), k, ep, now, MayFire(store.schedules, accounts, k), ok);
      } else {
        assert Sent(spec.wire, spec.wire, k, 0);
      }
    }

    /** One round of the loop: run the plan unless the service is going down. */
    method ExecuteNext(list: seq<(PlanKey, Plan)>, i: nat, now: int, ghost s: View, ghost was: bool)
        returns (stopped: bool, ok: bool)
      requires Valid() && i < |list| && IsSnapshot(list, s.plans, BeijingDate(now))
      requires Through(s, Look(), list, i, now, was, store.schedules, accounts)
      modifies this`clock, this`stopping, this`spec, this`traces, this`history
      modifies store`actions, store`nextKey, store`plans, store`disk, store`faults, store`logs, store`logLen, store.logs
      ensures Valid() && (store.logs == old(store.logs) || fresh(store.logs)) && (stopped ==> stopping)
      ensures Through(s, Look(), list, if stopped then i else i + 1, now, was && ok, store.schedules, accounts)
    {
      ok := true;
      stopped := Stopped();
      ghost var u := Look();
      StoppedThrough(s, old(Look()), u, list, i, now, was, store.schedules, accounts);
      if !stopped {
        ok := RunIfDue(list[i].0, list[i].1, now);
        OneMoreThrough(s, u, Look(), list, i, now, was, ok, store.schedules, accounts);
      }
    }

    /** Runs the due plans of the snapshot one after the other. */
    method ExecuteDue(list: seq<(PlanKey, Plan)>, now: int) returns (ok: bool)
      requires Valid() && spec.active == map[] && spec.tick == now && IsSnapshot(list, store.plans, BeijingDate(now))
      modifies this`clock, this`stopping, this`spec, this`traces, this`history
      modifies store`actions, store`nextKey, store`plans, store`disk, store`faults, store`logs, store`logLen, store.logs
      ensures Valid() && (store.logs == old(store.logs) || fresh(store.logs))
      ensures WorkedOff(old(Look()), Look(), now, ok, store.schedules, accounts)
    {
      ok := true;
      for i := 0 to |list|
        invariant Valid() && (store.logs == old(store.logs) || fresh(store.logs))
        invariant Through(old(Look()), Look(), list, i, now, ok, store.schedules, accounts)
      {
        var stopped, done := ExecuteNext(list, i, now, old(Look()), ok);
        if stopped {
          ThroughIsWorkedOff(old(Look()), Look(), list, i, now, ok && done, store.schedules, accounts);
          return false;
        }
        ok := ok && done;
      }
      ThroughIsWorkedOff(old(Look()), Look(), list, |list|, now, ok, store.schedules, accounts);
    }

    /** Reads the clock and drops what is older than the retention. */
    method StartTick() returns (now: int, ok: bool)
      requires Valid() && spec.active == map[]
      modifies this`clock, this`spec, store, store.logs
      ensures Valid() && spec.active == map[] && (store.logs == old(store.logs) || fresh(store.logs))
      ensures spec.tick == now == clock >= old(clock) && spec.wire == old(spec.wire)
      ensures store.schedules == old(store.schedules)
      ensures store.faults >= old(store.faults) && (ok || store.faults > old(store.faults))
      ensures store.plans.Keys <= old(store.plans).Keys
      ensures forall k :: k in store.plans ==> store.plans[k] == old(store.plans)[k]
      ensures forall k :: k in old(store.plans) && k.date >= BeijingDate(now) ==> k in store.plans
      ensures ok ==> forall k :: k in old(store.plans) ==>
                (k in store.plans <==>
                   k.date >= BeijingDate(now - 604_800_000_000_000)
                   && old(store.plans)[k].plannedAt >= now - 604_800_000_000_000)
    {
      now := Now();
      Follow(BeginTick);
      ReachableInv(spec);
      forall k | k in store.plans && k.date >= BeijingDate(now) ensures k in Kept(store.plans, now) {
        PruneSparesToday(spec, k);
      }
      ok := store.PruneAutoDrawData(BeijingDate(Cutoff(now)), Cutoff(now));
      if ok {
        Follow(Prune);
      }
    }

    /** Plans the day, then runs what is due. */
    method WorkThrough(now: int) returns (ok: bool)
      requires Valid() && spec.active == map[] && spec.tick == now
      modifies this`troubles, this`clock, this`stopping, this`spec, this`traces, this`history
      modifies store`actions, store`plans, store`nextKey, store`disk, store`faults, store`logs, store`logLen, store.logs
      ensures Valid() && (store.logs == old(store.logs) || fresh(store.logs))
      ensures DayDone(old(Look()), Look(), now, ok, store.schedules, accounts)
    {
      ok := EnsureToday(BeijingDate(now), now);
      if !ok {
        NotPlanned(old(Look()), Look(), now, store.schedules, accounts);
        return false;
      }
      ghost var m := Look();
      var list := PlansOf(BeijingDate(now));
      ok := ExecuteDue(list, now);
      PlannedThenWorked(old(Look()), m, Look(), now, ok, store.schedules, accounts);
    }

    /**
     One tick. Undisturbed, it leaves no plan of the day due and every enabled entry served, and every plan
     that was due ended by a report of its own executor, or skipped when it must not fire. Disturbed or not,
     it sends at most two draws for a plan, only for plans that may fire, and leaves ended plans alone.
     */
    method Tick() returns (ok: bool)
      requires Valid() && spec.active == map[]
      modifies this`troubles, this`clock, this`stopping, this`spec, this`traces, this`history, store, store.logs
      ensures Valid() && spec.active == map[] && (store.logs == old(store.logs) || fresh(store.logs))
      ensures SentSoFar(old(spec.wire), spec.wire, [], store.schedules, accounts)
      ensures forall k :: k in old(store.plans) && k.date >= BeijingDate(spec.tick)
                          && Terminal(old(store.plans)[k].status) ==>
                k in store.plans && store.plans[k] == old(store.plans)[k]
      ensures Faults() == old(Faults()) && !stopping ==>
                && ok && spec.tick >= old(clock) && NothingDue(store.plans, spec.tick)
                && EveryoneServed(Look(), spec.tick, store.schedules, accounts)
                && EachRan(old(store.plans), |old(history)|, Look(), spec.tick, store.schedules, accounts)
    {
      var stopped := Stopped();
      if stopped {
        return false;
      }
      var now;
      now, ok := StartTick();
      if ok {
        ok := WorkThrough(now);
      }
    }
  }
}
