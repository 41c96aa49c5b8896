/**
 What the scheduler's executors do and report: the draw with its one retry, the daily claim over the
 store, the check-in as its outcome alone.
 */
module Executors {
  import opened Prelude
  import opened State
  import opened Clock
  import opened PlanProtocol
  import opened DailyClaim

  datatype TaskError = Reauth | Cancelled | OtherError

  /** What an executor hands back: an error, or whether a draw was skipped, or what a claim or a check-in recorded. */
  datatype Report =
    | Errored(error: TaskError)
    | Ran(skipped: bool)
    | Claimed(out: ClaimOutcome)
    | CheckedIn(result: CheckinResult)

  datatype CheckinResult = Awarded | Unsettled | NotActiveEnough | NeedsReauth | Refused

  /** The platform's answer to one draw request. */
  datatype DrawReply = Drew | Unauthorized | Transient | OtherRefusal

  /** What a draw meets on its way: a session, the dashboard's count, an answered request, a renewal or a wait. */
  datatype Event =
    | Session(ok: bool)
    | Look(shown: Option<int>)
    | Draw(request: DrawRequest, reply: DrawReply)
    | Ready(ok: bool)

  /** The requests among the events. */
  function Requests(log: seq<Event>): (r: seq<DrawRequest>)
    ensures |r| <= |log|
  {
    if log == [] then []
    else
      var front := Requests(log[..|log| - 1]);
      if Last(log).Draw? then front + [Last(log).request] else front
  }

  /** Success exactly when the platform drew. */
  predicate Told(report: Report, reply: DrawReply) {
    if reply.Drew? then report == Ran(false) else report.Errored?
  }

  /**
   The whole course of a draw under one request: skipped exactly when the count shown leaves nothing to draw,
   and repeated once exactly after a 401/403 or a transient answer.
   */
  predicate Drawn(request: DrawRequest, log: seq<Event>, report: Report) {
    && |log| >= 1 && log[0].Session?
    && if !log[0].ok then |log| == 1 && report.Errored?
       else
         && |log| >= 2 && log[1].Look?
         && if log[1].shown.None? then |log| == 2 && report.Errored?
            else if log[1].shown.value <= 0 then |log| == 2 && report == Ran(true)
            else |log| >= 3 && Requested(request, log[2..], report)
  }

  /** From the first request on. */
  predicate Requested(request: DrawRequest, log: seq<Event>, report: Report)
    requires |log| >= 1
  {
    && log[0].Draw? && log[0].request == request
    && if log[0].reply == DrawReply.Unauthorized || log[0].reply == Transient then
         && |log| >= 2 && log[1].Ready?
         && if !log[1].ok then |log| == 2 && report.Errored?
            else |log| == 3 && log[2].Draw? && log[2].request == request && Told(report, log[2].reply)
       else
         |log| == 1 && Told(report, log[0].reply)
  }

  /** At most two requests leave, both the given one. */
  lemma DrawnRequests(request: DrawRequest, log: seq<Event>, report: Report)
    requires Drawn(request, log, report)
    ensures |Requests(log)| <= 2 && forall i :: 0 <= i < |Requests(log)| ==> Requests(log)[i] == request
  {
    assert forall i :: 0 < i <= |log| ==> log[..i][..i - 1] == log[..i - 1];
    assert log[..|log|] == log;
    if |log| >= 3 {
      RequestsStep(log, 1);
      RequestsStep(log, 2);
      RequestsStep(log, 3);
      if |log| >= 4 {
        RequestsStep(log, 4);
      }
      if |log| >= 5 {
        RequestsStep(log, 5);
      }
    }
  }

  lemma RequestsStep(log: seq<Event>, i: nat)
    requires 0 < i <= |log|
    ensures Requests(log[..i]) ==
            Requests(log[..i - 1]) + if log[i - 1].Draw? then [log[i - 1].request] else []
  {
    assert log[..i][..|log[..i]| - 1] == log[..i - 1];
  }

  /** What the executor of a task may report, and the course a draw took to it. */
  ghost predicate Played(k: PlanKey, plan: Plan, report: Report, log: seq<Event>) {
    match plan.task
    case Draw => Drawn(DrawRequest(k, plan.idemKey), log, report)
    case Claim => log == [] && (report.Claimed? || report.Errored?)
    case AutoCheckin => log == [] && (report.CheckedIn? || report.Errored?)
  }

  /** One call of the daily claim under one record key, as its executor reports it. */
  ghost predicate OneClaim(c: Claims, d: Claims, id: ActionKey, report: Report, calm: bool) {
    var s, t := c.DayOf(id), d.DayOf(id);
    var smooth := calm && Smooth(c, d, id);
    && (report.Claimed? || report.Errored?) && (smooth ==> report.Claimed?)
    && OnlyMine(c.actions, d.actions, id) && d.AllGuarded()
    && ClaimCall(s, t, if report.Claimed? then Ok(report.out) else Err)
    && (report.Claimed? ==> t.rec == Some(report.out.action))
    && (report.Claimed? && smooth ==> Handled(s, t, report.out))
  }

  /** No session, read or renewal failed meanwhile. */
  predicate Smooth(c: Claims, d: Claims, id: ActionKey) {
    d.TraceOf(id).troubles == c.TraceOf(id).troubles
  }

  /** Only a claim touches the claim records: the account's record of the date the call starts on. */
  ghost predicate ClaimedFor(task: Task, c: Claims, d: Claims, account: string, report: Report, at: int, calm: bool) {
    var id := ActionKey(BeijingDate(at), ActionKind.DailyClaim, account);
    if task.Claim? then OneClaim(c, d, id, report, calm) else c == d
  }

  function ClaimKey(date: int, account: string): ActionKey {
    ActionKey(date, ActionKind.DailyClaim, account)
  }

  method RandomError() returns (e: TaskError) {
    if * {
      return Reauth;
    }
    if * {
      return Cancelled;
    }
    return OtherError;
  }

  /** One draw call; only the steps that meet the outside write its log. */
  class DrawCall {
    ghost var log: seq<Event>

    constructor ()
      ensures log == []
    {
      log := [];
    }

    method GetSession() returns (ok: bool)
      modifies this`log
      ensures log == old(log) + [Session(ok)]
    {
      ok := *;
      log := log + [Session(ok)];
    }

    /** The count of remaining draws, unless the dashboard could not be read or did not show it. */
    method Remaining() returns (shown: Option<int>)
      modifies this`log
      ensures log == old(log) + [Look(shown)]
    {
      var readable: bool, count: int := *, *;
      shown := if readable then Some(count) else None;
      log := log + [Look(shown)];
    }

    /** One POST under the key the executor holds. */
    method Post(k: PlanKey, key: IdemKey) returns (reply: DrawReply)
      modifies this`log
      ensures log == old(log) + [Event.Draw(DrawRequest(k, key), reply)]
    {
      var answer: int := *;
      reply := match answer case 0 => Drew case 1 => DrawReply.Unauthorized case 2 => Transient case _ => OtherRefusal;
      log := log + [Event.Draw(DrawRequest(k, key), reply)];
    }

    /** A renewal of the session, or the wait before a second try. */
    method Renew() returns (ok: bool)
      modifies this`log
      ensures log == old(log) + [Ready(ok)]
    {
      ok := *;
      log := log + [Ready(ok)];
    }

    /** A draw with its one retry. */
    method DrawAvailable(k: PlanKey, key: IdemKey) returns (report: Report)
      requires log == []
      modifies this`log
      ensures Drawn(DrawRequest(k, key), log, report)
    {
      var error := RandomError();
      var session := GetSession();
      if !session {
        return Errored(error);
      }
      var remaining := Remaining();
      if remaining.None? {
        return Errored(error);
      }
      if remaining.value <= 0 {
        return Ran(true);
      }
      ghost var before := log;
      report := PostWithRecovery(k, key, error);
      assert log[0] == before[0] && log[1] == before[1];
    }

    /** One request, repeated once after a renewal or a wait. */
    method PostWithRecovery(k: PlanKey, key: IdemKey, error: TaskError) returns (report: Report)
      modifies this`log
      ensures |log| > |old(log)| && log[..|old(log)|] == old(log)
      ensures Requested(DrawRequest(k, key), log[|old(log)|..], report)
    {
      var reply := Post(k, key);
      ghost var first := Last(log);
      if reply.Unauthorized? || reply.Transient? {
        var again := Renew();
        if !again {
          assert log[|old(log)|..] == [first, Ready(false)];
          return Errored(error);
        }
        reply := Post(k, key);
        assert log[|old(log)|..] == [first, Ready(true), Last(log)];
      } else {
        assert log[|old(log)|..] == [first];
      }
      report := if reply.Drew? then Ran(false) else Errored(error);
    }
  }

  method Checkin() returns (report: Report)
    ensures report.Errored? || report.CheckedIn?
  {
    var error := RandomError();
    var answer: int := *;
    return match answer
           case 0 => CheckedIn(Awarded)
           case 1 => CheckedIn(Unsettled)
           case 2 => CheckedIn(NotActiveEnough)
           case 3 => CheckedIn(NeedsReauth)
           case 4 => CheckedIn(Refused)
           case _ => Errored(error);
  }

  /** The daily claim of an account for one date, going on from what was done under that key before. */
  method ClaimFor(id: ActionKey, store: Store, ghost traces: map<ActionKey, Trace>)
      returns (report: Report, ghost trace: Trace)
    requires store.Valid() && id.kind.DailyClaim? && id.account != "" && Claims(store.actions, traces).AllGuarded()
    modifies store`actions, store`nextKey, store`disk, store`faults
    ensures store.Valid() && store.faults >= old(store.faults) && store.nextKey >= old(store.nextKey)
    ensures OneClaim(Claims(old(store.actions), traces), Claims(store.actions, traces[id := trace]), id, report,
                     store.faults == old(store.faults))
  {
    var error := RandomError();
    ghost var c := Claims(store.actions, traces);
    var runner := new ClaimRunner.Resume(id, store, c.TraceOf(id));
    var out := runner.ClaimDaily();
    report := if out.Ok? then Claimed(out.value) else Errored(error);
    trace := Trace(runner.calls, runner.wire, runner.looks, runner.troubles);
    ghost var d := Claims(store.actions, traces[id := trace]);
    assert d.DayOf(id) == runner.Now();
    CallIsClaim(c, d, id, out, report, store.faults == old(store.faults));
  }

  lemma CallIsClaim(c: Claims, d: Claims, id: ActionKey, out: Result<ClaimOutcome>, report: Report, calm: bool)
    requires c.AllGuarded() && OnlyMine(c.actions, d.actions, id) && Guarded(d.DayOf(id))
    requires forall k :: k != id ==> d.TraceOf(k) == c.TraceOf(k)
    requires ClaimCall(c.DayOf(id), d.DayOf(id), out) && (out.Ok? ==> d.DayOf(id).rec == Some(out.value.action))
    requires calm && Smooth(c, d, id) ==> out.Ok? && Handled(c.DayOf(id), d.DayOf(id), out.value)
    requires if out.Ok? then report == Claimed(out.value) else report.Errored?
    ensures OneClaim(c, d, id, report, calm)
  {
    forall k: ActionKey | k.kind.DailyClaim? ensures Guarded(d.DayOf(k)) {
      if k != id {
        assert d.DayOf(k) == c.DayOf(k);
      }
    }
  }
}
