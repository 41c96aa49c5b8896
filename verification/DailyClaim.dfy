/**
 The daily free-draw claim. The platform offers no idempotency key for it, so the record alone must
 keep a claim from being sent twice.
 */
module DailyClaim {
  import opened Prelude
  import opened State

  datatype ClaimReply = Granted(after: Option<int>) | Declined | Unauthorized | Unclear

  datatype Post = Post(call: nat, reply: ClaimReply)

  datatype ClaimOutcome = ClaimOutcome(action: Action, alreadyRecorded: bool, added: int, remaining: Option<int>)

  /** dailyClaimAdded: never negative, zero when either count is missing. */
  function Added(before: Option<int>, after: Option<int>): (n: int)
    ensures n >= 0
    ensures before.Some? && after.Some? && after.value >= before.value ==> n == after.value - before.value
    ensures before.None? || after.None? || after.value <= before.value ==> n == 0
  {
    if before.None? || after.None? || after.value <= before.value then 0 else after.value - before.value
  }

  function Recorded(a: Action): ClaimOutcome {
    ClaimOutcome(a, true, Added(a.claimBefore, a.claimAfter), a.claimAfter)
  }

  function GrantedWith(a: Action, before: int, after: int): Action {
    a.(status := ActionCompleted, retryable := false, claimBefore := Some(before), claimAfter := Some(after))
  }

  function UnknownWith(a: Action, before: int): Action {
    a.(status := ActionUnknown, retryable := false, claimBefore := Some(before), claimAfter := None)
  }

  function DeclinedWith(a: Action, before: int): Action {
    a.(status := ActionFailed, retryable := true, started := false, claimBefore := Some(before), claimAfter := None)
  }

  // ----- what one call may do, whether it returns, fails or dies -----

  /** The record, the calls made, the claims sent, and the counts dashboards have shown. */
  datatype Day = Day(rec: Option<Action>, calls: nat, wire: seq<Post>, looks: seq<int>)

  ghost predicate Done(s: Day) {
    s.rec.Some? && s.rec.value.status.ActionCompleted?
  }

  /** A record that lets a call send a claim. */
  ghost predicate Open(s: Day) {
    s.rec.Some? ==>
      !s.rec.value.started
      && (s.rec.value.status.ActionPending? || (s.rec.value.status.ActionFailed? && s.rec.value.retryable))
  }

  /** The record allows another claim only after the last one was explicitly refused. */
  ghost predicate Guarded(s: Day) {
    && (s.rec.Some? && s.rec.value.status.ActionUnknown? ==> s.rec.value.started)
    && (s.rec.Some? && !s.rec.value.started && !Done(s) ==> s.wire == [] || Last(s.wire).reply.Declined?)
    && (s.rec.None? ==> s.wire == [])
    && (forall i :: 0 <= i < |s.wire| ==> s.wire[i].call < s.calls)
  }

  /** The counts a completed record keeps. */
  ghost predicate Measured(a: Action) {
    a.claimBefore.Some? && a.claimAfter.Some?
  }

  ghost predicate ClaimCall(s: Day, t: Day, out: Result<ClaimOutcome>) {
    var n := |s.wire|;
    && t.calls == s.calls + 1
    && n <= |t.wire| <= n + 2 && t.wire[..n] == s.wire && s.looks <= t.looks
    && (forall i :: n <= i < |t.wire| ==> t.wire[i].call == s.calls)
    && (|t.wire| == n + 2 ==> t.wire[n].reply.Unauthorized?)
    && (Done(s) ==> t.rec == s.rec && (out.Ok? ==> out.value == Recorded(s.rec.value)))
    && (!Open(s) ==> t.wire == s.wire)
    && (t.rec.None? ==> s.rec.None? && t.wire == s.wire)
    && (|t.wire| > n && t.rec.Some? ==> t.rec.value.started || Last(t.wire).reply.Declined?)
    && (s.rec.Some? && s.rec.value.started ==> t.rec.Some? && t.rec.value.started)
    && (t.rec.Some? && t.rec.value.status.ActionUnknown? ==> t.rec.value.started || t.rec == s.rec)
    && (Done(t) && !Done(s) ==> Measured(t.rec.value))
    && (Done(t) && out.Ok? ==> out.value == Recorded(t.rec.value).(alreadyRecorded := out.value.alreadyRecorded))
  }

  predicate SameCounts(a: ClaimOutcome, b: ClaimOutcome) {
    a.action == b.action && a.added == b.added && a.remaining == b.remaining
  }

  // ----- what a call without faults answers -----

  /** A completed claim: the count before it, the count after it, and what was added. */
  function Proven(c: Action, before: int, after: int, already: bool): ClaimOutcome {
    ClaimOutcome(c.(status := ActionCompleted, retryable := false, claimBefore := Some(before),
                    claimAfter := Some(after)),
                 already, if after > before then after - before else 0, Some(after))
  }

  /** After an answer that proves nothing the next count decides. */
  function Weighed(c: Action, before: int, after: int): ClaimOutcome {
    if after > before then Proven(c, before, after, true)
    else ClaimOutcome(c.(status := ActionUnknown, retryable := false), false, 0, Some(after))
  }

  /** The next count decides for a record an earlier call left started, too. */
  function Reweighed(r: Action, after: int): ClaimOutcome {
    if r.claimBefore.Some? && after > r.claimBefore.value then Proven(r, r.claimBefore.value, after, true)
    else ClaimOutcome(r.(status := ActionUnknown, retryable := false), true, 0, Some(after))
  }

  /** The record on disk when the claim goes out: the count before it, and the started mark. */
  function ClaimReady(r: Action, before: int): Action {
    r.(claimBefore := Some(before), claimAfter := None, retryable := false, started := true, attempts := r.attempts + 1)
  }

  /** From the record c on, the last answer and the counts shown decide. */
  ghost predicate Answered(s: Day, t: Day, c: Action, before: int, out: ClaimOutcome) {
    && |t.wire| > |s.wire|
    && match Last(t.wire).reply
       case Granted(Some(after)) => t.looks == s.looks && out == Proven(c, before, after, false)
       case Granted(None) => OneLook(s, t) && out == Proven(c, before, Last(t.looks), false)
       case Declined =>
         && t.looks == s.looks
         && out == ClaimOutcome(c.(status := ActionFailed, retryable := true, started := false), false, 0, Some(before))
       case _ => OneLook(s, t) && out == Weighed(c, before, Last(t.looks))
  }

  ghost predicate OneLook(s: Day, t: Day) {
    t.looks != [] && t.looks == s.looks + [Last(t.looks)]
  }

  /** From the pending record r on: the first count shown is the count before the claim. */
  ghost predicate Performed(s: Day, t: Day, r: Action, out: ClaimOutcome) {
    && |t.looks| > |s.looks|
    && var before := t.looks[|s.looks|];
       Answered(s.(looks := s.looks + [before]), t, ClaimReady(r, before), before, out)
  }

  /** What a call without faults does about the record it finds. */
  ghost predicate Handled(s: Day, t: Day, out: ClaimOutcome) {
    if Open(s) then
      Performed(s, t, if s.rec.None? then NewAction(out.action.idemKey) else s.rec.value.(status := ActionPending), out)
    else
      var r := s.rec.value;
      if !Done(s) && r.started then OneLook(s, t) && out == Reweighed(r, Last(t.looks))
      else
        && out.action == r && out.alreadyRecorded && out.remaining == r.claimAfter
        && out.added == (if !Measured(r) || r.claimAfter.value < r.claimBefore.value then 0
                         else r.claimAfter.value - r.claimBefore.value)
  }

  /** Exactly when an undisturbed call answers with a completed claim, and when with a failed one. */
  lemma CompletedIff(s: Day, t: Day, out: ClaimOutcome)
    requires Guarded(s) && Handled(s, t, out)
    ensures out.action.status.ActionCompleted? <==>
              Done(s)
              || (Open(s) && (Last(t.wire).reply.Granted?
                              || (!Last(t.wire).reply.Declined? && Last(t.looks) > t.looks[|s.looks|])))
              || (!Open(s) && s.rec.value.started && s.rec.value.claimBefore.Some?
                  && Last(t.looks) > s.rec.value.claimBefore.value)
    ensures out.action.status.ActionFailed? <==>
              (Open(s) && Last(t.wire).reply.Declined?) || (!Open(s) && !Done(s) && !s.rec.value.started)
  {}

  // ----- claims from a pending record -----

  /** What an attempt from a pending record may leave behind, whatever fails on the way. */
  ghost predicate Tried(s: Day, t: Day, out: Result<ClaimOutcome>) {
    var n := |s.wire|;
    && t.calls == s.calls && t.rec.Some? && s.looks <= t.looks
    && n <= |t.wire| <= n + 2 && t.wire[..n] == s.wire
    && (forall i :: n <= i < |t.wire| ==> t.wire[i].call == s.calls)
    && (|t.wire| == n + 2 ==> t.wire[n].reply.Unauthorized?)
    && (|t.wire| > n ==> t.rec.value.started || Last(t.wire).reply.Declined?)
    && (t.rec.value.status.ActionUnknown? ==> t.rec.value.started)
    && (t.rec.value.status.ActionCompleted? ==> Measured(t.rec.value))
    && (out.Ok? ==> out.value.action == t.rec.value)
    && (out.Ok? && out.value.action.status.ActionCompleted? ==>
          out.value == Recorded(out.value.action).(alreadyRecorded := out.value.alreadyRecorded))
  }

  lemma TriedIsCall(s: Day, u: Day, t: Day, out: Result<ClaimOutcome>)
    requires Guarded(s) && Open(s) && u == s.(rec := u.rec) && Tried(u, t, out)
    ensures ClaimCall(s, t.(calls := s.calls + 1), out)
  {}

  // ----- whole days -----

  ghost predicate Calls(days: seq<Day>, outs: seq<Result<ClaimOutcome>>) {
    && |days| == |outs| + 1
    && days[0] == Day(None, 0, [], [])
    && forall i :: 0 <= i < |outs| ==> ClaimCall(days[i], days[i + 1], outs[i])
  }

  lemma StaysGuarded(s: Day, t: Day, out: Result<ClaimOutcome>)
    requires Guarded(s) && ClaimCall(s, t, out)
    ensures Guarded(t)
  {
    forall j | 0 <= j < |t.wire| ensures t.wire[j].call < t.calls {
      if j < |s.wire| {
        assert t.wire[j] == t.wire[..|s.wire|][j];
      }
    }
  }

  lemma {:induction false} AlwaysGuarded(days: seq<Day>, outs: seq<Result<ClaimOutcome>>, i: nat)
    requires Calls(days, outs) && i < |days|
    ensures Guarded(days[i])
  {
    if i > 0 {
      AlwaysGuarded(days, outs, i - 1);
      StaysGuarded(days[i - 1], days[i], outs[i - 1]);
    }
  }

  /**
   Completed is absorbing: from the completing call on, the record never changes, nothing is sent, and
   every answer repeats the counts the completing call itself answered with, if it did answer.
   */
  lemma {:induction false} CompletedIsAbsorbing(days: seq<Day>, outs: seq<Result<ClaimOutcome>>, i: nat, j: nat)
    requires Calls(days, outs) && i <= j < |days| && Done(days[i])
    ensures days[j].rec == days[i].rec && days[j].wire == days[i].wire
    ensures forall k :: i <= k < j && outs[k].Ok? ==> outs[k].value == Recorded(days[i].rec.value)
    ensures forall k :: i <= k < j && outs[k].Ok? && i > 0 && outs[i - 1].Ok? ==>
              SameCounts(outs[k].value, outs[i - 1].value)
    ensures Measured(days[i].rec.value)
    decreases j
  {
    CompletedIsMeasured(days, outs, i);
    if i > 0 {
      assert ClaimCall(days[i - 1], days[i], outs[i - 1]);
    }
    if i < j {
      CompletedIsAbsorbing(days, outs, i, j - 1);
      assert ClaimCall(days[j - 1], days[j], outs[j - 1]);
    }
  }

  lemma {:induction false} CompletedIsMeasured(days: seq<Day>, outs: seq<Result<ClaimOutcome>>, i: nat)
    requires Calls(days, outs) && i < |days| && Done(days[i])
    ensures Measured(days[i].rec.value)
  {
    if i > 0 {
      assert ClaimCall(days[i - 1], days[i], outs[i - 1]);
      if Done(days[i - 1]) {
        CompletedIsMeasured(days, outs, i - 1);
      }
    }
  }

  /** A later call sends a claim only if the claim just before it was explicitly refused. */
  lemma {:induction false} ReclaimedOnlyAfterRefusal(days: seq<Day>, outs: seq<Result<ClaimOutcome>>, n: nat)
    requires Calls(days, outs) && n < |days|
    ensures var w := days[n].wire;
            forall q :: 0 < q < |w| && w[q].call != w[q - 1].call ==> w[q - 1].reply.Declined?
    ensures var w := days[n].wire;
            forall q :: 0 < q < |w| && w[q].call == w[q - 1].call ==> w[q - 1].reply.Unauthorized?
  {
    if n > 0 {
      ReclaimedOnlyAfterRefusal(days, outs, n - 1);
      AlwaysGuarded(days, outs, n - 1);
      var s, t := days[n - 1], days[n];
      assert ClaimCall(s, t, outs[n - 1]);
      forall q | 0 < q < |t.wire|
        ensures t.wire[q].call != t.wire[q - 1].call ==> t.wire[q - 1].reply.Declined?
        ensures t.wire[q].call == t.wire[q - 1].call ==> t.wire[q - 1].reply.Unauthorized?
      {
        if q <= |s.wire| {
          assert t.wire[q - 1] == t.wire[..|s.wire|][q - 1];
          if q < |s.wire| {
            assert t.wire[q] == t.wire[..|s.wire|][q];
          }
        }
      }
    }
  }

  // ----- the claim records of all accounts and dates -----

  /**
   The calls made and the claims sent under one record key, and the counts shown to those calls and their
   failed steps.
   */
  datatype Trace = Trace(calls: nat, wire: seq<Post>, looks: seq<int>, troubles: nat)

  /** The records of the store, with what was done under each key. */
  datatype Claims = Claims(actions: map<ActionKey, Action>, traces: map<ActionKey, Trace>) {
    function TraceOf(id: ActionKey): Trace {
      if id in traces then traces[id] else Trace(0, [], [], 0)
    }

    function DayOf(id: ActionKey): Day {
      Day(if id in actions then Some(actions[id]) else None, TraceOf(id).calls, TraceOf(id).wire, TraceOf(id).looks)
    }

    ghost predicate AllGuarded() {
      forall id: ActionKey :: id.kind.DailyClaim? ==> Guarded(DayOf(id))
    }
  }

  /** Nothing but the record of id differs. */
  ghost predicate OnlyMine(before: map<ActionKey, Action>, after: map<ActionKey, Action>, id: ActionKey) {
    forall k :: k != id ==> (k in after <==> k in before) && (k in before && k in after ==> after[k] == before[k])
  }

  /** The count before the claim and the started mark are on disk. */
  predicate Armed(a: Action, before: int) {
    && a.started && a.status.ActionPending? && !a.retryable
    && a.claimBefore == Some(before) && a.claimAfter == None
  }

  class ClaimRunner {
    const id: ActionKey
    const store: Store
    ghost var calls: nat
    ghost var wire: seq<Post>
    ghost var looks: seq<int>
    ghost var troubles: nat

    constructor (id: ActionKey, store: Store)
      requires store.Valid() && id !in store.actions
      ensures Valid() && Now() == Day(None, 0, [], [])
    {
      this.id, this.store, calls, wire, looks, troubles := id, store, 0, [], [], 0;
    }

    /** Going on with a record, after the calls of its trace. */
    constructor Resume(id: ActionKey, store: Store, ghost trace: Trace)
      requires store.Valid() && Guarded(Claims(store.actions, map[id := trace]).DayOf(id))
      ensures Valid() && this.id == id && this.store == store && troubles == trace.troubles
      ensures Now() == Claims(store.actions, map[id := trace]).DayOf(id)
    {
      this.id, this.store, calls, wire, looks := id, store, trace.calls, trace.wire, trace.looks;
      troubles := trace.troubles;
    }

    ghost predicate Valid()
      reads this, store, store.logs
    {
      store.Valid() && Guarded(Now())
    }

    ghost function Now(): Day
      reads this, store
    {
      Day(if id in store.actions then Some(store.actions[id]) else None, calls, wire, looks)
    }

    ghost function Faults(): nat
      reads this, store
    {
      troubles + store.faults
    }

    /** One network step that may fail; a process that dies here leaves the same traces. */
    method Attempt() returns (ok: bool)
      modifies this`troubles
      ensures troubles == old(troubles) + if ok then 0 else 1
    {
      ok := *;
      if !ok {
        troubles := troubles + 1;
      }
    }

    /** A dashboard read with its recovery: failed, or the remaining draws if it shows them. */
    method Remaining() returns (r: Result<Option<int>>)
      modifies this`troubles, this`looks
      ensures troubles >= old(troubles) && (r.Err? ==> troubles > old(troubles))
      ensures r.Ok? && r.value.None? ==> troubles > old(troubles)
      ensures looks == old(looks) + if r.Ok? && r.value.Some? then [r.value.value] else []
    {
      var ok := Attempt();
      if !ok {
        return Err;
      }
      var shown: int := *;
      ok := Attempt();
      if ok {
        looks := looks + [shown];
      }
      return Ok(if ok then Some(shown) else None);
    }

    method Send() returns (reply: ClaimReply)
      modifies this`wire
      ensures wire == old(wire) + [Post(calls, reply)]
    {
      reply := *;
      wire := wire + [Post(calls, reply)];
    }

    /** The claim, repeated once under a renewed session after a 401; a failed renewal is an unclear end. */
    method ClaimWithRecovery() returns (reply: ClaimReply)
      modifies this`wire, this`troubles
      ensures troubles >= old(troubles)
      ensures |wire| == |old(wire)| + 1 || |wire| == |old(wire)| + 2
      ensures wire[..|old(wire)|] == old(wire) && forall i :: |old(wire)| <= i < |wire| ==> wire[i].call == calls
      ensures |wire| == |old(wire)| + 2 ==> wire[|old(wire)|].reply.Unauthorized?
      ensures reply.Declined? || reply.Granted? ==> Last(wire).reply == reply
      ensures reply.Unclear? && troubles == old(troubles) ==>
                Last(wire).reply.Unclear? || Last(wire).reply.Unauthorized?
      ensures !reply.Unauthorized?
    {
      reply := Send();
      if reply.Unauthorized? {
        var renewed := Attempt();
        if !renewed {
          return Unclear;
        }
        reply := Send();
        if reply.Unauthorized? {
          return Unclear;
        }
      }
    }

    /** Writes the record and reports what the call saw. */
    method Finish(update: Action -> Action, already: bool, added: int, remaining: Option<int>)
        returns (out: Result<ClaimOutcome>)
      requires store.Valid() && id in store.actions
      modifies store`actions, store`disk, store`faults
      ensures store.Valid() && store.faults >= old(store.faults)
      ensures out.Err? ==> store.actions == old(store.actions) && store.faults > old(store.faults)
      ensures out.Ok? ==> out.value == ClaimOutcome(update(old(store.actions)[id]), already, added, remaining)
                          && store.actions == old(store.actions)[id := out.value.action]
    {
      var updated := store.UpdateAction(id, update);
      return if updated.Ok? then Ok(ClaimOutcome(updated.value, already, added, remaining)) else Err;
    }

    /** An unproven claim becomes unknown; a grown count proves it. */
    method ReconcileAfterPost(before: int) returns (out: Result<ClaimOutcome>)
      requires store.Valid() && id in store.actions
      modifies this`troubles, this`looks, store`actions, store`disk, store`faults
      ensures store.Valid() && Faults() >= old(Faults()) && (out.Err? ==> Faults() > old(Faults()))
      ensures out.Err? ==> store.actions == old(store.actions)
      ensures out.Ok? ==> store.actions == old(store.actions)[id := out.value.action]
      ensures old(looks) <= looks
      ensures Faults() == old(Faults()) ==>
                && OneLook(old(Now()), Now())
                && var c := old(store.actions)[id].(claimBefore := Some(before), claimAfter := None);
                   out.value == Weighed(c, before, Last(looks))
      ensures out.Ok? ==> (out.value.action == UnknownWith(old(store.actions)[id], before)
                           || (exists after ::
                                 after > before
                                 && out.value == Recorded(GrantedWith(old(store.actions)[id], before, after))))
      ensures store.faults >= old(store.faults)
    {
      var seen := Remaining();
      if seen.Ok? && seen.value.Some? && seen.value.value > before {
        var after := seen.value.value;
        out := Finish(a => GrantedWith(a, before, after), true, after - before, Some(after));
      } else {
        out := Finish(a => UnknownWith(a, before), false, 0, if seen.Ok? then seen.value else None);
      }
    }

    method ReconcileDailyClaim() returns (out: Result<ClaimOutcome>)
      requires store.Valid() && id in store.actions && !store.actions[id].status.ActionCompleted?
      modifies this`troubles, this`looks, store`actions, store`disk, store`faults
      ensures store.Valid() && Faults() >= old(Faults()) && (out.Err? ==> Faults() > old(Faults()))
      ensures out.Err? ==> store.actions == old(store.actions)
      ensures out.Ok? ==> store.actions == old(store.actions)[id := out.value.action]
      ensures old(looks) <= looks
      ensures Faults() == old(Faults()) ==>
                OneLook(old(Now()), Now()) && out.value == Reweighed(old(store.actions)[id], Last(looks))
      ensures out.Ok? ==>
                var was := old(store.actions)[id];
                (out.value.action == was.(status := ActionUnknown, retryable := false)
                 || (was.claimBefore.Some? && exists after ::
                       after > was.claimBefore.value
                       && out.value == Recorded(GrantedWith(was, was.claimBefore.value, after))))
      ensures store.faults >= old(store.faults)
    {
      var ok := Attempt();
      if !ok {
        return Err;
      }
      var seen := Remaining();
      if seen.Err? {
        return Err;
      }
      var action := store.actions[id];
      if seen.value.Some? && action.claimBefore.Some? && seen.value.value > action.claimBefore.value {
        var after := seen.value.value;
        out := Finish((a: Action) => a.(status := ActionCompleted, retryable := false, claimAfter := Some(after)),
                      true, after - action.claimBefore.value, Some(after));
        if out.Ok? {
          assert out.value == Recorded(GrantedWith(action, action.claimBefore.value, after));
        }
      } else {
        out := Finish((a: Action) => a.(status := ActionUnknown, retryable := false), true, 0, seen.value);
      }
    }

    method PreflightError() returns (out: Result<ClaimOutcome>)
      requires store.Valid() && id in store.actions
      modifies store`actions, store`disk, store`faults
      ensures store.Valid() && store.faults >= old(store.faults)
      ensures out.Err? ==> store.actions == old(store.actions) && store.faults > old(store.faults)
      ensures out.Ok? ==> out.value.action.status.ActionFailed? && !out.value.action.started
      ensures out.Ok? ==> store.actions == old(store.actions)[id := out.value.action]
    {
      var retryable: bool := *;
      var update := (a: Action) => a.(status := ActionFailed, retryable := retryable, started := false);
      out := Finish(update, false, 0, None);
    }

    /** From a pending record: measure, mark started, claim, record the answer. */
    method Perform() returns (out: Result<ClaimOutcome>)
      requires store.Valid() && id in store.actions
      requires store.actions[id].status.ActionPending? && !store.actions[id].started
      modifies this`wire, this`troubles, this`looks, store`actions, store`disk, store`faults
      ensures store.Valid() && id in store.actions && Faults() >= old(Faults())
      ensures out.Err? ==> Faults() > old(Faults())
      ensures Tried(old(Now()), Now(), out)
      ensures Faults() == old(Faults()) ==> Performed(old(Now()), Now(), old(store.actions)[id], out.value)
      ensures OnlyMine(old(store.actions), store.actions, id) && store.faults >= old(store.faults)
    {
      var before := Measure();
      if before.None? {
        out := PreflightError();
      } else {
        out := MeasuredClaim(before.value);
      }
    }

    /** A session, and the count before the claim. */
    method Measure() returns (before: Option<int>)
      modifies this`troubles, this`looks
      ensures troubles >= old(troubles)
      ensures before.None? ==> troubles > old(troubles) && old(looks) <= looks
      ensures before.Some? ==> looks == old(looks) + [before.value]
    {
      var ok := Attempt();
      if !ok {
        return None;
      }
      var seen := Remaining();
      return if seen.Ok? then seen.value else None;
    }

    /** The count is durable before the started mark. */
    method MeasuredClaim(before: int) returns (out: Result<ClaimOutcome>)
      requires store.Valid() && id in store.actions
      requires store.actions[id].status.ActionPending? && !store.actions[id].started
      modifies this`wire, this`troubles, this`looks, store`actions, store`disk, store`faults
      ensures store.Valid() && id in store.actions && Faults() >= old(Faults())
      ensures out.Err? ==> Faults() > old(Faults())
      ensures Tried(old(Now()), Now(), out)
      ensures Faults() == old(Faults()) ==>
                Answered(old(Now()), Now(), ClaimReady(old(store.actions)[id], before), before, out.value)
      ensures OnlyMine(old(store.actions), store.actions, id) && store.faults >= old(store.faults)
    {
      var update := (a: Action) => a.(claimBefore := Some(before), claimAfter := None, retryable := false);
      var measured := store.UpdateAction(id, update);
      if measured.Err? {
        return Err;
      }
      out := Claim(before);
    }

    method Claim(before: int) returns (out: Result<ClaimOutcome>)
      requires store.Valid() && id in store.actions && !store.actions[id].retryable
      requires store.actions[id].claimBefore == Some(before) && store.actions[id].claimAfter == None
      requires store.actions[id].status.ActionPending? && !store.actions[id].started
      modifies this`wire, this`troubles, this`looks, store`actions, store`disk, store`faults
      ensures store.Valid() && id in store.actions && Faults() >= old(Faults())
      ensures out.Err? ==> Faults() > old(Faults())
      ensures Tried(old(Now()), Now(), out)
      ensures Faults() == old(Faults()) ==>
                Answered(old(Now()), Now(), ClaimReady(old(store.actions)[id], before), before, out.value)
      ensures OnlyMine(old(store.actions), store.actions, id) && store.faults >= old(store.faults)
    {
      var begun := store.UpdateAction(id, (a: Action) => a.(started := true, attempts := a.attempts + 1));
      if begun.Err? {
        return Err;
      }
      var lives := Attempt();
      if !lives {
        return Err;
      }
      out := SendClaim(before);
    }

    /** The claim itself, and the record its answer calls for. */
    method SendClaim(before: int) returns (out: Result<ClaimOutcome>)
      requires store.Valid() && id in store.actions && Armed(store.actions[id], before)
      modifies this`wire, this`troubles, this`looks, store`actions, store`disk, store`faults
      ensures store.Valid() && id in store.actions && Faults() >= old(Faults())
      ensures out.Err? ==> Faults() > old(Faults())
      ensures Tried(old(Now()), Now(), out)
      ensures Faults() == old(Faults()) ==> Answered(old(Now()), Now(), old(store.actions)[id], before, out.value)
      ensures OnlyMine(old(store.actions), store.actions, id) && store.faults >= old(store.faults)
    {
      var reply := ClaimWithRecovery();
      var lives := Attempt();
      if !lives {
        return Err;
      }
      if reply.Declined? {
        out := Finish(a => DeclinedWith(a, before), false, 0, Some(before));
      } else if reply.Granted? {
        out := Grant(before, reply.after);
      } else {
        out := ReconcileAfterPost(before);
      }
    }

    /** A granted claim: the reply's own count, or one more dashboard read. */
    method Grant(before: int, replied: Option<int>) returns (out: Result<ClaimOutcome>)
      requires store.Valid() && id in store.actions
      modifies this`troubles, this`looks, store`actions, store`disk, store`faults
      ensures store.Valid() && Faults() >= old(Faults()) && (out.Err? ==> Faults() > old(Faults()))
      ensures out.Err? ==> store.actions == old(store.actions)
      ensures out.Ok? ==> store.actions == old(store.actions)[id := out.value.action]
      ensures out.Ok? ==>
                var was := old(store.actions)[id];
                (out.value.action == UnknownWith(was, before)
                 || (exists after ::
                       SameCounts(out.value, Recorded(GrantedWith(was, before, after)))))
      ensures old(looks) <= looks
      ensures Faults() == old(Faults()) ==>
                if replied.Some? then
                  looks == old(looks) && out == Ok(Proven(old(store.actions)[id], before, replied.value, false))
                else
                  OneLook(old(Now()), Now()) && out == Ok(Proven(old(store.actions)[id], before, Last(looks), false))
      ensures store.faults >= old(store.faults)
    {
      var after := replied;
      if after.None? {
        var seen := Remaining();
        if seen.Err? || seen.value.None? {
          out := ReconcileAfterPost(before);
          return;
        }
        after := seen.value;
      }
      var final := after.value;
      var added := if final > before then final - before else 0;
      out := Finish(a => GrantedWith(a, before, final), false, added, after);
      if out.Ok? {
        assert out.value == Recorded(GrantedWith(old(store.actions)[id], before, final)).(alreadyRecorded := false);
      }
    }

    method ClaimDaily() returns (out: Result<ClaimOutcome>)
      requires Valid()
      modifies this`calls, this`wire, this`troubles, this`looks, store`actions, store`nextKey, store`disk, store`faults
      ensures Valid() && ClaimCall(old(Now()), Now(), out)
      ensures out.Ok? ==> Now().rec == Some(out.value.action)
      ensures Faults() >= old(Faults()) && (out.Err? && id.account != "" ==> Faults() > old(Faults()))
      ensures id.account != "" && Faults() == old(Faults()) ==> Handled(old(Now()), Now(), out.value)
      ensures OnlyMine(old(store.actions), store.actions, id) && store.nextKey >= old(store.nextKey)
      ensures store.faults >= old(store.faults)
    {
      out := CallClaim();
      calls := calls + 1;
      StaysGuarded(old(Now()), Now(), out);
    }

    lemma FailedCall(s: Day)
      requires Guarded(s)
      ensures ClaimCall(s, s.(calls := s.calls + 1), Err)
    {}

    /** The call itself, before it is counted. */
    method CallClaim() returns (out: Result<ClaimOutcome>)
      requires Valid()
      modifies this`wire, this`troubles, this`looks, store`actions, store`nextKey, store`disk, store`faults
      ensures store.Valid() && ClaimCall(old(Now()), Now().(calls := calls + 1), out)
      ensures out.Ok? ==> Now().rec == Some(out.value.action)
      ensures Faults() >= old(Faults()) && (out.Err? && id.account != "" ==> Faults() > old(Faults()))
      ensures id.account != "" && Faults() == old(Faults()) ==> Handled(old(Now()), Now(), out.value)
      ensures OnlyMine(old(store.actions), store.actions, id) && store.nextKey >= old(store.nextKey)
      ensures store.faults >= old(store.faults)
    {
      var got := store.GetOrCreateAction(id);
      if got.Err? {
        FailedCall(Now());
        out := Err;
      } else if got.value.1 {
        out := ClaimCreated();
      } else {
        out := ClaimExisting(got.value.0);
      }
    }

    method ClaimCreated() returns (out: Result<ClaimOutcome>)
      requires store.Valid() && id in store.actions && wire == []
      requires store.actions[id] == NewAction(store.actions[id].idemKey)
      modifies this`wire, this`troubles, this`looks, store`actions, store`disk, store`faults
      ensures store.Valid() && id in store.actions
      ensures ClaimCall(Day(None, calls, [], old(looks)), Now().(calls := calls + 1), out)
      ensures out.Ok? ==> Now().rec == Some(out.value.action)
      ensures Faults() >= old(Faults()) && (out.Err? ==> Faults() > old(Faults()))
      ensures Faults() == old(Faults()) ==> Handled(Day(None, calls, [], old(looks)), Now(), out.value)
      ensures OnlyMine(old(store.actions), store.actions, id) && store.faults >= old(store.faults)
    {
      out := Perform();
      TriedIsCall(Day(None, calls, [], old(looks)), old(Now()), Now(), out);
    }

    method ClaimExisting(action: Action) returns (out: Result<ClaimOutcome>)
      requires Valid() && id in store.actions && store.actions[id] == action
      modifies this`wire, this`troubles, this`looks, store`actions, store`disk, store`faults
      ensures store.Valid() && id in store.actions
      ensures ClaimCall(old(Now()), Now().(calls := calls + 1), out)
      ensures out.Ok? ==> Now().rec == Some(out.value.action)
      ensures Faults() >= old(Faults()) && (out.Err? ==> Faults() > old(Faults()))
      ensures Faults() == old(Faults()) ==> Handled(old(Now()), Now(), out.value)
      ensures OnlyMine(old(store.actions), store.actions, id) && store.faults >= old(store.faults)
    {
      if action.status.ActionCompleted? {
        out := Ok(Recorded(action));
      } else if !action.started && (action.status.ActionPending? || (action.status.ActionFailed? && action.retryable)) {
        out := TryAgain(action);
      } else if action.status.ActionUnknown? || action.started {
        out := ReconcileDailyClaim();
      } else {
        out := Ok(Recorded(action));
      }
    }

    /** A record that lets this call claim: a refused one is reset first, a pending one resumed. */
    method TryAgain(action: Action) returns (out: Result<ClaimOutcome>)
      requires Valid() && id in store.actions && store.actions[id] == action && Open(Now())
      modifies this`wire, this`troubles, this`looks, store`actions, store`disk, store`faults
      ensures store.Valid() && id in store.actions
      ensures ClaimCall(old(Now()), Now().(calls := calls + 1), out)
      ensures out.Ok? ==> Now().rec == Some(out.value.action)
      ensures Faults() >= old(Faults()) && (out.Err? ==> Faults() > old(Faults()))
      ensures Faults() == old(Faults()) ==>
                Performed(old(Now()), Now(), action.(status := ActionPending), out.value)
      ensures OnlyMine(old(store.actions), store.actions, id) && store.faults >= old(store.faults)
    {
      if action.status.ActionFailed? {
        var reset := store.ResetRetryableAction(id);
        if reset.Err? {
          return Err;
        }
      }
      ghost var u := Now();
      out := Perform();
      TriedIsCall(old(Now()), u, Now(), out);
    }
  }
}
