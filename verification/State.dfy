/**
 The persisted state of the workbench: action records, automatic plans, draw schedules and
 runtime logs. Every operation changes memory, tries one atomic durable write, and undoes the
 memory change when that write fails.
 */
module State {
  import opened Prelude

  /** Idempotency keys are 128-bit random values; the model numbers them in the order they are drawn. */
  type IdemKey = nat

  datatype ActionKind = Checkin | DailyClaim | DrawPurchase | PassUnlock

  datatype ActionStatus = ActionPending | ActionCompleted | ActionFailed | ActionUnknown

  datatype ActionKey = ActionKey(date: int, kind: ActionKind, account: string)

  datatype Action = Action(
    idemKey: IdemKey,
    status: ActionStatus,
    attempts: nat,
    started: bool,
    retryable: bool,
    claimBefore: Option<int>,
    claimAfter: Option<int>,
    purchaseBeforeToday: Option<int>,
    purchaseBeforeRemaining: Option<int>,
    passBeforeUnlocked: Option<bool>)

  datatype Task = Draw | Claim | AutoCheckin

  datatype PlanStatus = PlanPending | PlanRunning | PlanCompleted | PlanSkipped | PlanFailed

  datatype PlanKey = PlanKey(date: int, window: string, account: string)

  datatype Plan = Plan(task: Task, plannedAt: int, idemKey: IdemKey, status: PlanStatus)

  /** A plan as the scheduler asks for it, before the store gives it an idempotency key. */
  datatype PlanRequest = PlanRequest(key: PlanKey, task: Task, plannedAt: int)

  datatype ScheduleKind = Fixed | Random

  datatype Schedule = Schedule(id: string, kind: ScheduleKind, start: nat, end: nat, task: Task, enabled: bool)

  datatype LogEntry = LogEntry(occurredAt: int, account: string, window: string, task: Task, status: PlanStatus)

  /** What one state file holds. */
  datatype Durable = Durable(
    actions: map<ActionKey, Action>,
    plans: map<PlanKey, Plan>,
    schedules: map<string, seq<Schedule>>,
    logs: seq<LogEntry>)

  predicate Terminal(s: PlanStatus) {
    s.PlanCompleted? || s.PlanSkipped? || s.PlanFailed?
  }

  // ----- what each operation does to the durable contents -----

  function NewAction(k: IdemKey): Action {
    Action(k, ActionPending, 0, false, false, None, None, None, None, None)
  }

  predicate Repeatable(a: Action) {
    !a.started && (a.status.ActionCompleted? || (a.status.ActionFailed? && a.retryable))
  }

  function Reset(a: Action): Action {
    a.(status := ActionPending, retryable := false)
  }

  function Begun(p: Plan): Plan {
    p.(status := PlanRunning)
  }

  function Postponed(p: Plan, nextAt: int): Plan {
    p.(status := PlanPending, plannedAt := nextAt)
  }

  /** The entries of s that keep accepts, in order. */
  function Filter<T>(s: seq<T>, keep: T -> bool): (r: seq<T>)
    ensures |r| <= |s|
  {
    if s == [] then []
    else
      var front := Filter(s[..|s| - 1], keep);
      if keep(Last(s)) then front + [Last(s)] else front
  }

  function Since(t: int): LogEntry -> bool {
    (e: LogEntry) => e.occurredAt >= t
  }

  function NotOf(account: string): LogEntry -> bool {
    (e: LogEntry) => e.account != account
  }

  function Retained(d: Durable, beforeDate: int, beforeTime: int): Durable {
    d.(plans := map k | k in d.plans && k.date >= beforeDate && d.plans[k].plannedAt >= beforeTime :: d.plans[k],
       logs := Filter(d.logs, Since(beforeTime)))
  }

  function WithoutAccount(d: Durable, account: string): Durable {
    Durable(
      map k | k in d.actions && k.account != account :: d.actions[k],
      map k | k in d.plans && k.account != account :: d.plans[k],
      d.schedules - {account},
      Filter(d.logs, NotOf(account)))
  }

  /** The schedule list a reader sees; an absent account and an empty list read the same. */
  function SchedulesOf(d: Durable, account: string): seq<Schedule> {
    if account in d.schedules then d.schedules[account] else []
  }

  /** What schedule normalization guarantees: minutes of the day, and a random window that is not empty. */
  predicate Normalized(e: Schedule) {
    e.id != "" && e.start < 1440 && (e.kind.Random? ==> e.start < e.end < 1440)
  }

  predicate Acceptable(entries: seq<Schedule>) {
    |entries| <= 12 && DistinctIds(entries) && forall e :: e in entries ==> Normalized(e)
  }

  predicate DistinctIds(entries: seq<Schedule>) {
    forall i, j :: 0 <= i < j < |entries| ==> entries[i].id != entries[j].id
  }

  /** Two states no accessor can tell apart. */
  ghost predicate SameView(a: Durable, b: Durable) {
    a.actions == b.actions && a.plans == b.plans && a.logs == b.logs &&
    forall id :: SchedulesOf(a, id) == SchedulesOf(b, id)
  }

  lemma {:induction false} FilterMembers<T(!new)>(s: seq<T>, keep: T -> bool)
    ensures forall x :: x in Filter(s, keep) <==> x in s && keep(x)
  {
    if s != [] {
      FilterMembers(s[..|s| - 1], keep);
      assert s == s[..|s| - 1] + [Last(s)];
    }
  }

  lemma FilterSnoc<T>(s: seq<T>, i: nat, keep: T -> bool)
    requires i < |s|
    ensures Filter(s[..i + 1], keep) == Filter(s[..i], keep) + if keep(s[i]) then [s[i]] else []
  {
    assert s[..i + 1][..i] == s[..i];
  }

  // ----- Filter keeps exactly the accepted entries, in order -----

  /** Positions of the accepted entries of s. */
  ghost function KeptAt<T>(s: seq<T>, keep: T -> bool): (r: seq<nat>)
    ensures |r| == |Filter(s, keep)|
  {
    if s == [] then []
    else
      var front := KeptAt(s[..|s| - 1], keep);
      if keep(Last(s)) then front + [|s| - 1] else front
  }

  /** at lists, in increasing order, exactly the positions of s that keep accepts; r is what stands there. */
  ghost predicate ExactPositions<T(!new)>(s: seq<T>, keep: T -> bool, at: seq<nat>, r: seq<T>) {
    && |at| == |r|
    && (forall j :: 0 <= j < |at| ==> at[j] < |s| && r[j] == s[at[j]] && keep(r[j]))
    && (forall i, j :: 0 <= i < j < |at| ==> at[i] < at[j])
    && (forall i :: 0 <= i < |s| ==> keep(s[i]) ==> i in at)
  }

  lemma ExactSnoc<T(!new)>(t: seq<T>, x: T, keep: T -> bool, at: seq<nat>, r: seq<T>)
    requires ExactPositions(t, keep, at, r)
    ensures if keep(x) then ExactPositions(t + [x], keep, at + [|t|], r + [x]) else ExactPositions(t + [x], keep, at, r)
  {
    if keep(x) {
      ExactTaken(t, x, keep, at, r);
    }
  }

  lemma ExactTaken<T(!new)>(t: seq<T>, x: T, keep: T -> bool, at: seq<nat>, r: seq<T>)
    requires ExactPositions(t, keep, at, r) && keep(x)
    ensures ExactPositions(t + [x], keep, at + [|t|], r + [x])
  {
    var at' := at + [|t|];
    assert at'[..|at|] == at && at'[|at|] == |t|;
    forall i | 0 <= i <= |t| && keep((t + [x])[i]) ensures i in at' {
      assert i < |t| ==> i in at'[..|at|];
    }
  }

  /** The result of the in-place filters: strictly increasing positions, every accepted one and no other. */
  lemma {:induction false} FilterIsExact<T(!new)>(s: seq<T>, keep: T -> bool)
    ensures ExactPositions(s, keep, KeptAt(s, keep), Filter(s, keep))
  {
    if s != [] {
      var t := s[..|s| - 1];
      FilterIsExact(t, keep);
      ExactSnoc(t, Last(s), keep, KeptAt(t, keep), Filter(t, keep));
      assert s == t + [Last(s)];
    }
  }

  class Store {
    var actions: map<ActionKey, Action>
    var plans: map<PlanKey, Plan>
    var schedules: map<string, seq<Schedule>>
    var logs: array<LogEntry>  // a Go slice: backing array ...
    var logLen: nat            // ... and length
    var nextKey: IdemKey
    var disk: Durable
    ghost var faults: nat      // writes and key draws that failed so far

    ghost predicate Shaped()
      reads this, logs
    {
      logLen <= logs.Length
    }

    function Memory(): Durable
      reads this, logs
      requires Shaped()
    {
      Durable(actions, plans, schedules, logs[..logLen])
    }

    /** Readers of memory see exactly what the last successful write made durable. */
    ghost predicate Valid()
      reads this, logs
    {
      Shaped() && SameView(Memory(), disk)
    }

    /** Opening an existing state file, as after a crash. */
    constructor Open(file: Durable, firstKey: IdemKey)
      ensures Valid() && Memory() == disk == file && nextKey == firstKey && fresh(logs)
    {
      actions, plans, schedules := file.actions, file.plans, file.schedules;
      var buffer := new LogEntry[|file.logs|];
      logs, logLen, nextKey, disk := buffer, |file.logs|, firstKey, file;
      new;
      forall i | 0 <= i < |file.logs| {
        buffer[i] := file.logs[i];
      }
      assert logs[..logLen] == file.logs;
    }

    /** One atomic rename over the state file: all of memory becomes durable, or nothing does. */
    method Persist() returns (ok: bool)
      requires Shaped()
      modifies this`disk, this`faults
      ensures disk == if ok then Memory() else old(disk)
      ensures faults == old(faults) + if ok then 0 else 1
    {
      ok := *;
      if ok {
        disk := Memory();
      } else {
        faults := faults + 1;
      }
    }

    method NewKey() returns (r: Result<IdemKey>)
      modifies this`nextKey, this`faults
      ensures r.Ok? ==> r.value == old(nextKey) && nextKey == old(nextKey) + 1 && faults == old(faults)
      ensures r.Err? ==> nextKey == old(nextKey) && faults == old(faults) + 1
    {
      if * {
        r, nextKey := Ok(nextKey), nextKey + 1;
      } else {
        r, faults := Err, faults + 1;
      }
    }

    method GetOrCreateAction(k: ActionKey) returns (r: Result<(Action, bool)>)
      requires Valid()
      modifies this`actions, this`nextKey, this`disk, this`faults
      ensures Valid() && nextKey >= old(nextKey)
      ensures faults >= old(faults) && (r.Err? && k.account != "" ==> faults > old(faults))
      ensures k.account == "" ==> r.Err?
      ensures r.Err? ==> actions == old(actions)
      ensures r.Ok? && !r.value.1 ==> k in actions && r.value.0 == actions[k] && actions == old(actions)
      ensures r.Ok? && r.value.1 ==>
                k !in old(actions) && actions == old(actions)[k := r.value.0]
                && r.value.0 == Action(old(nextKey), ActionPending, 0, false, false, None, None, None, None, None)
                && nextKey > old(nextKey)
    {
      if k.account == "" {
        return Err;
      }
      if k in actions {
        return Ok((actions[k], false));
      }
      var key := NewKey();
      if key.Err? {
        return Err;
      }
      var action := NewAction(key.value);
      var previous := actions;
      actions := actions[k := action];
      var ok := Persist();
      if !ok {
        actions := actions - {k};
        assert actions == previous;
        return Err;
      }
      return Ok((action, true));
    }

    method UpdateAction(k: ActionKey, update: Action -> Action) returns (r: Result<Action>)
      requires Valid()
      modifies this`actions, this`disk, this`faults
      ensures Valid()
      ensures faults >= old(faults) && (r.Err? && k in old(actions) ==> faults > old(faults))
      ensures k !in old(actions) ==> r.Err?
      ensures r.Err? ==> actions == old(actions)
      ensures r.Ok? ==> r.value == update(old(actions)[k]) && actions == old(actions)[k := r.value]
    {
      if k !in actions {
        return Err;
      }
      var previous := actions;
      var action := update(actions[k]);
      actions := actions[k := action];
      var ok := Persist();
      if !ok {
        actions := actions[k := previous[k]];
        assert actions == previous;
        return Err;
      }
      return Ok(action);
    }

    method ResetRetryableAction(k: ActionKey) returns (r: Result<Action>)
      requires Valid()
      modifies this`actions, this`disk, this`faults
      ensures Valid()
      ensures faults >= old(faults)
      ensures r.Err? && k in old(actions) && old(actions[k].retryable && !actions[k].started) ==> faults > old(faults)
      ensures r.Err? ==> actions == old(actions)
      ensures r.Ok? ==> k in old(actions) && old(actions[k].retryable && !actions[k].started)
      ensures r.Ok? ==> r.value == old(actions)[k].(status := ActionPending, retryable := false)
      ensures r.Ok? ==> actions == old(actions)[k := r.value]
    {
      if k !in actions || !actions[k].retryable || actions[k].started {
        return Err;
      }
      r := UpdateAction(k, a => Reset(a));
    }

    method RotateRepeatableAction(k: ActionKey) returns (r: Result<Action>)
      requires Valid()
      modifies this`actions, this`nextKey, this`disk, this`faults
      ensures Valid() && nextKey >= old(nextKey)
      ensures faults >= old(faults)
      ensures r.Err? ==> actions == old(actions)
      ensures k in old(actions) ==>
                var a := old(actions)[k];
                var finished := a.status.ActionCompleted? || (a.status.ActionFailed? && a.retryable);
                (r.Ok? ==> !a.started && finished) && (r.Err? && !a.started && finished ==> faults > old(faults))
      ensures r.Ok? ==> k in old(actions) && nextKey > old(nextKey)
      ensures r.Ok? ==>
                && actions == old(actions)[k := r.value]
                && r.value == Action(old(nextKey), ActionPending, 0, false, false, None, None, None, None, None)
    {
      if k !in actions || !Repeatable(actions[k]) {
        return Err;
      }
      var key := NewKey();
      if key.Err? {
        return Err;
      }
      var rotated := NewAction(key.value);
      r := UpdateAction(k, a => rotated);
    }

    /** Adds the requested plans that do not exist yet, all in one write. */
    method EnsurePlans(requests: seq<PlanRequest>) returns (ok: bool)
      requires Valid()
      modifies this`plans, this`nextKey, this`disk, this`faults
      ensures Valid() && nextKey >= old(nextKey)
      ensures faults >= old(faults) && (!ok ==> faults > old(faults))
      ensures !ok ==> plans == old(plans)
      ensures ok ==> plans.Keys == old(plans).Keys + (set q | q in requests :: q.key)
      ensures ok ==> forall k :: k in old(plans) ==> plans[k] == old(plans)[k]
      ensures ok ==> forall k :: k in plans && k !in old(plans) ==> Asked(requests, k, plans[k], old(nextKey), nextKey)
      ensures ok ==> forall j, k :: j in plans && k in plans && j !in old(plans) && k !in old(plans) ==>
                       plans[j].idemKey == plans[k].idemKey ==> j == k
    {
      var pending := map[];
      var i := 0;
      while i < |requests|
        invariant i <= |requests|
        invariant nextKey >= old(nextKey) && plans == old(plans) && disk == old(disk) && faults == old(faults)
        invariant forall k :: k in pending ==> k !in plans && Asked(requests, k, pending[k], old(nextKey), nextKey)
        invariant forall j, k :: j in pending && k in pending ==> pending[j].idemKey == pending[k].idemKey ==> j == k
        invariant forall j :: 0 <= j < i ==> requests[j].key in plans || requests[j].key in pending
      {
        var q := requests[i];
        if q.key !in plans && q.key !in pending {
          var key := NewKey();
          if key.Err? {
            return false;
          }
          pending := pending[q.key := Plan(q.task, q.plannedAt, key.value, PlanPending)];
        }
        i := i + 1;
      }
      var previous := plans;
      plans := plans + pending;
      ok := Persist();
      if !ok {
        plans := plans - pending.Keys;
        assert plans == previous;
      }
    }

    /** Replaces one plan, undone when the write fails. */
    method PutPlan(k: PlanKey, p: Plan) returns (ok: bool)
      requires Valid() && k in plans
      modifies this`plans, this`disk, this`faults
      ensures Valid()
      ensures faults >= old(faults) && (!ok ==> faults > old(faults))
      ensures plans == if ok then old(plans)[k := p] else old(plans)
    {
      var previous := plans;
      plans := plans[k := p];
      ok := Persist();
      if !ok {
        plans := plans[k := previous[k]];
        assert plans == previous;
      }
    }

    /** Ok((plan, true)) marks the plan running; a terminal plan is left alone and answered with false. */
    method BeginPlan(k: PlanKey) returns (r: Result<(Plan, bool)>)
      requires Valid()
      modifies this`plans, this`disk, this`faults
      ensures Valid()
      ensures faults >= old(faults)
      ensures r.Err? && k in old(plans) ==> faults > old(faults) && !Terminal(old(plans)[k].status)
      ensures r.Ok? ==> k in old(plans) && r.value.1 == !Terminal(old(plans)[k].status)
      ensures r.Ok? && r.value.1 ==>
                r.value.0 == old(plans)[k].(status := PlanRunning) && plans == old(plans)[k := r.value.0]
      ensures r.Err? || !r.value.1 ==> plans == old(plans)
    {
      if k !in plans {
        return Err;
      }
      if Terminal(plans[k].status) {
        return Ok((plans[k], false));
      }
      var plan := Begun(plans[k]);
      var ok := PutPlan(k, plan);
      return if ok then Ok((plan, true)) else Err;
    }

    /** Note that a plan already terminal is overwritten: only BeginPlan looks at the old status. */
    method FinishPlan(k: PlanKey, status: PlanStatus) returns (r: Result<Plan>)
      requires Valid()
      modifies this`plans, this`disk, this`faults
      ensures Valid()
      ensures faults >= old(faults)
      ensures r.Err? && k in old(plans) && status in {PlanCompleted, PlanSkipped, PlanFailed} ==> faults > old(faults)
      ensures r.Err? ==> plans == old(plans)
      ensures r.Ok? ==> k in old(plans) && status in {PlanCompleted, PlanSkipped, PlanFailed}
      ensures r.Ok? ==> r.value == old(plans)[k].(status := status) && plans == old(plans)[k := r.value]
    {
      if k !in plans || !Terminal(status) {
        return Err;
      }
      var plan := plans[k].(status := status);
      var ok := PutPlan(k, plan);
      return if ok then Ok(plan) else Err;
    }

    method PostponePlan(k: PlanKey, nextAt: int) returns (ok: bool)
      requires Valid()
      modifies this`plans, this`disk, this`faults
      ensures Valid()
      ensures faults >= old(faults)
      ensures !ok && k in old(plans) && !Terminal(old(plans)[k].status) ==> faults > old(faults)
      ensures ok ==> k in old(plans) && !Terminal(old(plans)[k].status)
      ensures ok ==> plans == old(plans)[k := old(plans)[k].(status := PlanPending, plannedAt := nextAt)]
      ensures !ok ==> plans == old(plans)
    {
      if k !in plans || Terminal(plans[k].status) {
        return false;
      }
      ok := PutPlan(k, Postponed(plans[k], nextAt));
    }

    /** Appends in place when the backing array has room, as Go's append does. */
    method AppendLog(e: LogEntry) returns (ok: bool)
      requires Valid()
      modifies this`logs, this`logLen, this`disk, this`faults, logs
      ensures Valid() && (logs == old(logs) || fresh(logs))
      ensures faults >= old(faults) && (!ok && e.account != "" && e.window != "" ==> faults > old(faults))
      ensures e.account == "" || e.window == "" ==> !ok
      ensures Memory().logs == if ok then old(Memory().logs) + [e] else old(Memory().logs)
    {
      if e.account == "" || e.window == "" {
        return false;
      }
      ghost var before := Memory().logs;
      if logLen == logs.Length {
        var bigger := new LogEntry[2 * logLen + 1];
        forall i | 0 <= i < logLen {
          bigger[i] := logs[i];
        }
        logs := bigger;
      }
      logs[logLen] := e;
      logLen := logLen + 1;
      assert logs[..logLen] == before + [e];
      ok := Persist();
      if !ok {
        logLen := logLen - 1;
        assert logs[..logLen] == before;
      }
    }

    /** Compacts the log slice over its own backing array. */
    method FilterLogs(keep: LogEntry -> bool)
      requires Shaped()
      modifies this`logLen, logs
      ensures Shaped() && Memory().logs == Filter(old(Memory().logs), keep)
    {
      ghost var before := logs[..logLen];
      var i, w := 0, 0;
      while i < logLen
        invariant w <= i <= logLen == old(logLen)
        invariant forall j :: i <= j < logLen ==> logs[j] == before[j]
        invariant logs[..w] == Filter(before[..i], keep)
      {
        FilterSnoc(before, i, keep);
        ghost var kept := logs[..w];
        var e := logs[i];
        if keep(e) {
          logs[w] := e;
          w := w + 1;
          assert logs[..w] == kept + [e];
        } else {
          assert logs[..w] == kept + [];
        }
        i := i + 1;
      }
      assert before[..i] == before;
      logLen := w;
    }

    method PruneAutoDrawData(beforeDate: int, beforeTime: int) returns (ok: bool)
      requires Valid()
      modifies this`actions, this`plans, this`schedules, this`logs, this`logLen, this`disk, this`faults, logs
      ensures Valid() && (logs == old(logs) || fresh(logs))
      ensures faults >= old(faults) && (!ok ==> faults > old(faults))
      ensures Memory() == if ok then Retained(old(Memory()), beforeDate, beforeTime) else old(Memory())
      ensures ok ==> forall e :: e in Memory().logs <==> e in old(Memory().logs) && e.occurredAt >= beforeTime
    {
      var previous := Memory();
      var previousLogs := CopyLogs();
      FilterMembers(previous.logs, Since(beforeTime));
      plans := map k | k in plans && k.date >= beforeDate && plans[k].plannedAt >= beforeTime :: plans[k];
      FilterLogs(Since(beforeTime));
      ok := Persist();
      if !ok {
        PutBack(previous, previousLogs);
      }
    }

    /** Undoes a failed operation from the copies taken before it. */
    method PutBack(previous: Durable, previousLogs: array<LogEntry>)
      requires previousLogs[..] == previous.logs
      modifies this`actions, this`plans, this`schedules, this`logs, this`logLen
      ensures Shaped() && Memory() == previous && logs == previousLogs
    {
      actions, plans, schedules := previous.actions, previous.plans, previous.schedules;
      logs, logLen := previousLogs, previousLogs.Length;
      assert logs[..logLen] == logs[..];
    }

    method CopyLogs() returns (copy: array<LogEntry>)
      requires Shaped()
      ensures fresh(copy) && copy[..] == logs[..logLen]
    {
      copy := new LogEntry[logLen];
      forall i | 0 <= i < logLen {
        copy[i] := logs[i];
      }
    }

    method DropAccount(account: string)
      requires Shaped()
      modifies this`actions, this`plans, this`schedules, this`logLen, logs
      ensures Shaped() && Memory() == WithoutAccount(old(Memory()), account)
    {
      actions := map k | k in actions && k.account != account :: actions[k];
      plans := map k | k in plans && k.account != account :: plans[k];
      FilterLogs(NotOf(account));
      schedules := schedules - {account};
    }

    method RemoveAccountScopedState(account: string) returns (ok: bool)
      requires Valid()
      modifies this`actions, this`plans, this`schedules, this`logs, this`logLen, this`disk, this`faults, logs
      ensures Valid() && (logs == old(logs) || fresh(logs))
      ensures faults >= old(faults) && (!ok && account != "" ==> faults > old(faults))
      ensures account == "" ==> !ok
      ensures Memory() == if ok then WithoutAccount(old(Memory()), account) else old(Memory())
      ensures ok ==> forall e :: e in Memory().logs <==> e in old(Memory().logs) && e.account != account
    {
      if account == "" {
        return false;
      }
      var previous := Memory();
      var previousLogs := CopyLogs();
      FilterMembers(previous.logs, NotOf(account));
      DropAccount(account);
      ok := Persist();
      if !ok {
        PutBack(previous, previousLogs);
      }
    }

    /** A failed write puts back the previous list, which leaves an empty entry where there was none. */
    method SetDrawSchedules(account: string, entries: seq<Schedule>) returns (ok: bool)
      requires Valid()
      modifies this`schedules, this`disk, this`faults
      ensures Valid()
      ensures ok ==> schedules == old(schedules)[account := entries]
      ensures var acceptable :=
                && |entries| <= 12 && (forall i, j :: 0 <= i < j < |entries| ==> entries[i].id != entries[j].id)
                && forall e :: e in entries ==>
                     e.id != "" && e.start < 1440 && (e.kind.Random? ==> e.start < e.end < 1440);
              (ok ==> acceptable) && (!ok && account != "" && acceptable ==> faults > old(faults))
      ensures !ok ==>
                schedules == old(schedules)
                || schedules == old(schedules)[account := old(SchedulesOf(Memory(), account))]
      ensures !ok ==> forall id :: SchedulesOf(Memory(), id) == old(SchedulesOf(Memory(), id))
    {
      if account == "" || !Acceptable(entries) {
        return false;
      }
      ghost var before := Memory();
      var previous := SchedulesOf(Memory(), account);
      schedules := schedules[account := entries];
      ok := Persist();
      if !ok {
        schedules := schedules[account := previous];
        assert forall id :: SchedulesOf(Memory(), id) == SchedulesOf(before, id);
      }
    }
  }

  /** p is a new plan made for one of the requests, under a key drawn between two counter values. */
  ghost predicate Asked(requests: seq<PlanRequest>, k: PlanKey, p: Plan, first: IdemKey, next: IdemKey) {
    p.status == PlanPending && PlanRequest(k, p.task, p.plannedAt) in requests && first <= p.idemKey < next
  }
}
