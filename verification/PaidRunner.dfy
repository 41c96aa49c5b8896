/**
 The purchase and pass-unlock calls as the code runs them, over the store and a platform that answers
 as it likes. The ghost field `spec` follows PaidProtocol: every call is a sequence of its steps, so
 every theorem about its runs holds of this object. A crash is the step Abandon, enabled at every
 point of a call.
 */
module PaidRunner {
  import opened Prelude
  import opened State
  import opened PaidProtocol
  import PaidRecovery

  datatype Outcome = Outcome(action: Action, alreadyRecorded: bool)

  /** A purchase counter of the dashboard shows more than it did. */
  predicate Grew(today: Option<int>, remaining: Option<int>, d: Dash) {
    || (today.Some? && d.today > today.value)
    || (remaining.Some? && d.remaining.Some? && d.remaining.value > remaining.value)
  }

  /** What a dashboard makes of the started record r: done when its own fields show it, else still open. */
  ghost predicate Ended(kind: Paid, r: Action, d: Dash, open: ActionStatus, a: Action) {
    var done := if kind.Unlock? then d.unlocked else Grew(r.purchaseBeforeToday, r.purchaseBeforeRemaining, d);
    a == r.(status := if done then ActionCompleted else open, started := !done, retryable := false)
  }

  /** The record b as it is on disk when its first request goes out. */
  function ArmedWith(kind: Paid, b: Action, before: Dash): Action {
    var c := b.(started := true, attempts := b.attempts + 1, retryable := false);
    match kind
    case Purchase => c.(purchaseBeforeToday := Some(before.today), purchaseBeforeRemaining := before.remaining,
                        passBeforeUnlocked := None)
    case Unlock => c.(purchaseBeforeToday := None, purchaseBeforeRemaining := None,
                      passBeforeUnlocked := Some(before.unlocked))
  }

  /**
   What a call can be judged by: the requests and dashboards since the day began, the platform now, and how
   often a call found its record finished by a twin that ran while it waited for the lock.
   */
  datatype Trail = Trail(wire: seq<Request>, looks: seq<Dash>, plat: Platform, twins: nat)

  /** One more dashboard was read, and it decides what becomes of the started record r. */
  ghost predicate Settled(kind: Paid, was: Trail, now: Trail, r: Action, open: ActionStatus, a: Action) {
    && now.looks != [] && now.looks == was.looks + [Last(now.looks)]
    && Truthful(Last(now.looks), now.plat) && Ended(kind, r, Last(now.looks), open, a)
  }

  /** The same for a record an earlier call left started; nothing is sent. */
  ghost predicate Reconciled(kind: Paid, was: Trail, now: Trail, r: Action, a: Action) {
    && now.wire == was.wire
    && Settled(kind, was, now, r, if r.status.ActionPending? then ActionPending else ActionUnknown, a)
  }

  /** The key of the armed record c went out; its last answer, and a dashboard unless refused, decide. */
  ghost predicate Sent(kind: Paid, was: Trail, now: Trail, c: Action, a: Action) {
    && |now.wire| > |was.wire| && Last(now.wire).key == c.idemKey
    && match Last(now.wire).reply
       case None => false
       case Some(Insufficient) =>
         now.looks == was.looks && a == c.(status := ActionFailed, retryable := true, started := false)
       case Some(Accepted(pending)) => Settled(kind, was, now, c, if pending then ActionPending else ActionUnknown, a)
       case Some(_) => Settled(kind, was, now, c, ActionUnknown, a)
  }

  /** From the pending record b and the dashboard before: an unlocked pass is done, anything else is sent. */
  ghost predicate Requested(kind: Paid, was: Trail, now: Trail, b: Action, before: Dash, a: Action) {
    var c := ArmedWith(kind, b, before);
    if kind.Unlock? && before.unlocked then
      && now.wire == was.wire && now.looks == was.looks
      && a == c.(status := ActionCompleted, started := false, attempts := b.attempts)
    else
      Sent(kind, was, now, c, a)
  }

  ghost predicate Performed(kind: Paid, was: Trail, now: Trail, b: Action, a: Action) {
    exists before :: Requested(kind, was.(looks := was.looks + [before]), now, b, before, a)
  }

  /** What a call without faults does about the record it finds. */
  ghost predicate Handled(kind: Paid, rec: Option<Action>, minted: IdemKey, was: Trail, now: Trail, out: Outcome) {
    var a := out.action;
    var anew := a.idemKey >= minted && Performed(kind, was, now, NewAction(a.idemKey), a);
    match rec
    case None => anew
    case Some(r) =>
      match Dispatch(kind, r)
      case ToResume => Performed(kind, was, now, r, a)
      case ToRotate =>
        if kind.Purchase? && now.twins > was.twins then out.alreadyRecorded && a == r && now.wire == was.wire
        else anew
      case ToReconcile => Reconciled(kind, was, now, r, a)
      case ToReplay => out.alreadyRecorded && a == r && now.wire == was.wire
  }

  datatype PostResult = Posted(pending: bool) | RefusedAsInsufficient | Unclear

  class Runner {
    const kind: Paid
    const id: ActionKey
    const store: Store
    var plat: Platform
    ghost var origin: Sys
    ghost var steps: seq<Step>
    ghost var spec: Sys
    ghost var looks: seq<Dash>  // the dashboards read so far
    ghost var twins: nat        // calls so far that a twin had finished meanwhile
    ghost var troubles: nat     // sessions, reads and renewals that failed so far

    /** A new day: no record yet, nothing sent. */
    constructor (kind: Paid, id: ActionKey, store: Store, today: int, remaining: int, unlocked: bool)
      requires store.Valid() && id !in store.actions
      ensures Valid() && spec.phase.Idle? && this.kind == kind && this.id == id && this.store == store
    {
      var dawn := Platform(today, remaining, unlocked, {}, {});
      this.kind, this.id, this.store, plat := kind, id, store, dawn;
      origin := Sys(None, Idle, 0, store.nextKey, dawn, [], [], {});
      spec, steps, looks, twins, troubles := origin, [], [], 0, 0;
    }

    /** spec is reached from a morning by an admissible run. */
    ghost predicate Tracked()
      reads this
    {
      Dawn(origin) && Admissible(kind, origin, steps) && spec == Run(kind, origin, steps)
    }

    ghost predicate Linked()
      reads this, store
    {
      && spec.plat == plat
      && spec.minted <= store.nextKey
      && spec.rec == if id in store.actions then Some(store.actions[id]) else None
    }

    ghost predicate Valid()
      reads this, store, store.logs
    {
      store.Valid() && Tracked() && Linked()
    }

    ghost function Seen(): Trail
      reads this
    {
      Trail(spec.wire, looks, plat, twins)
    }

    /** Everything that went wrong so far, on the platform side and on the disk. */
    ghost function Faults(): nat
      reads this, store
    {
      troubles + store.faults
    }

    /** The record says completed exactly when the platform has charged its key. */
    ghost predicate Matches(a: Action)
      reads this
    {
      kind.Purchase? ==> (a.status.ActionCompleted? <==> a.idemKey in plat.charged)
    }

    /** Read off the run: what the dashboard just read leaves unproven was not charged. */
    lemma RecordMatches(d: Dash)
      requires Tracked() && spec.plat == plat && spec.rec.Some?
      requires spec.rec.value.started ==> Truthful(d, plat) && !Proves(kind, spec.rec.value, d)
      ensures Matches(spec.rec.value)
    {
      if kind.Purchase? {
        PaidRecovery.CompletedIffCharged(origin, steps, d);
      }
    }

    ghost method Follow(step: Step)
      requires Tracked() && Enabled(kind, spec, step)
      modifies this`steps, this`spec
      ensures Tracked() && spec == Apply(kind, old(spec), step)
    {
      RunSnoc(kind, origin, steps, step);
      steps := steps + [step];
      spec := Apply(kind, spec, step);
    }

    /** Any number of platform steps, while the call waits. */
    method Interfere()
      requires Tracked() && spec.plat == plat
      modifies this`plat, this`steps, this`spec
      ensures Tracked() && spec == old(spec).(plat := plat)
    {
      var n: nat := *;
      while n > 0
        invariant Tracked() && spec == old(spec).(plat := plat)
      {
        var charge: bool, spend: bool := *, *;
        if plat.open != {} && charge {
          var k :| k in plat.open;
          var amount: nat :| amount > 0;
          Follow(Charge(k, amount));
          plat := Charged(kind, plat, k, amount);
        } else if spend {
          var used: nat := *;
          Follow(Spend(used));
          plat := plat.(remaining := plat.remaining - used);
        } else {
          Follow(UnlockElsewhere);
          plat := plat.(unlocked := true);
        }
        n := n - 1;
      }
    }

    /** A dashboard read with its recovery; None when every attempt failed. */
    method Dashboard() returns (d: Option<Dash>)
      requires Tracked() && spec.plat == plat
      modifies this`plat, this`steps, this`spec, this`looks, this`troubles
      ensures Tracked() && spec == old(spec).(plat := plat)
      ensures looks == old(looks) + if d.Some? then [d.value] else []
      ensures d.Some? ==> Truthful(d.value, plat) && troubles == old(troubles)
      ensures d.None? ==> troubles > old(troubles)
    {
      Interfere();
      if * {
        troubles := troubles + 1;
        return None;
      }
      var shown: bool, unlocked: bool := *, *;
      d := Some(Dash(plat.today, if shown then Some(plat.remaining) else None, plat.unlocked && unlocked));
      looks := looks + [d.value];
    }

    /** Acquiring a lottery session. */
    method AcquireLottery() returns (ok: bool)
      requires Tracked() && spec.plat == plat
      modifies this`plat, this`steps, this`spec, this`troubles
      ensures Tracked() && spec == old(spec).(plat := plat)
      ensures if ok then troubles == old(troubles) else troubles > old(troubles)
    {
      Interfere();
      ok := *;
      if !ok {
        troubles := troubles + 1;
      }
    }

    /** One POST under the record's key. */
    method Post() returns (reply: Reply)
      requires Valid() && spec.rec.Some? && (spec.phase.Armed? || spec.phase.Rejected?)
      modifies this`plat, this`steps, this`spec
      ensures Valid() && spec.rec == old(spec.rec) && |spec.wire| == |old(spec.wire)| + 1
      ensures Last(spec.wire).key == spec.rec.value.idemKey && Last(spec.wire).reply == Some(reply)
      ensures old(spec.phase.Armed?) && reply.Unauthorized? ==> spec.phase.Rejected?
      ensures reply.Accepted? ==> spec.phase == Settling(if reply.pending then ActionPending else ActionUnknown)
      ensures reply.Insufficient? ==> spec.phase.Refusing?
      ensures reply.Lost? || (reply.Unauthorized? && old(spec.phase.Rejected?)) ==>
                spec.phase == Settling(ActionUnknown)
    {
      var key := store.actions[id].idemKey;
      Follow(Send);
      plat := plat.(open := plat.open + {key});
      Interfere();
      reply :| reply.Unauthorized? || reply.Insufficient? ==> key !in plat.charged;
      Follow(Answer(reply));
      if reply.Unauthorized? || reply.Insufficient? {
        plat := plat.(open := plat.open - {key});
      }
    }

    /** The request, repeated once under a renewed session when the first one is answered 401/403. */
    method PostWithRecovery() returns (result: PostResult)
      requires Valid() && spec.rec.Some? && spec.phase.Armed?
      modifies this`plat, this`steps, this`spec, this`troubles
      ensures Valid() && spec.rec == old(spec.rec) && troubles >= old(troubles)
      ensures |old(spec.wire)| < |spec.wire| <= |old(spec.wire)| + 2 && Last(spec.wire).key == spec.rec.value.idemKey
      ensures result.Posted? ==>
                && Last(spec.wire).reply == Some(Accepted(result.pending))
                && spec.phase == Settling(if result.pending then ActionPending else ActionUnknown)
      ensures result.RefusedAsInsufficient? ==> spec.phase.Refusing?
      ensures result.RefusedAsInsufficient? && troubles == old(troubles) ==> Last(spec.wire).reply == Some(Insufficient)
      ensures result.Unclear? ==> spec.phase == Settling(ActionUnknown)
      ensures result.Unclear? && troubles == old(troubles) ==>
                Last(spec.wire).reply == Some(Unauthorized) || Last(spec.wire).reply == Some(Lost)
    {
      var reply := Post();
      if reply.Unauthorized? {
        var renewed: bool := *;
        if !renewed {
          troubles := troubles + 1;
          var readsInsufficient: bool := *;
          Follow(RenewFail(readsInsufficient));
          return if readsInsufficient then RefusedAsInsufficient else Unclear;
        }
        reply := Post();
      }
      match reply
      case Accepted(pending) => return Posted(pending);
      case Insufficient => return RefusedAsInsufficient;
      case Unauthorized => return Unclear;
      case Lost => return Unclear;
    }

    /** Rewrites the stored record and ends the call there, or abandons the call when the write fails. */
    method Conclude(update: Action -> Action, already: bool, ghost step: Step) returns (out: Result<Outcome>)
      requires Valid() && spec.rec.Some? && Enabled(kind, spec, step) && Enabled(kind, spec, Abandon)
      requires Apply(kind, spec, step) ==
               spec.(rec := Some(update(spec.rec.value)), phase := Idle,
                     completions := Apply(kind, spec, step).completions)
      modifies this`steps, this`spec, this`troubles, store`actions, store`disk, store`faults
      ensures Valid() && spec.phase.Idle? && spec.wire == old(spec.wire)
      ensures Faults() >= old(Faults()) && (out.Err? ==> Faults() > old(Faults()))
      ensures out.Ok? ==>
                out.value == Outcome(update(old(spec.rec.value)), already) && spec.rec == Some(out.value.action)
      ensures Seen() == old(Seen())
      ensures out.Err? ==> spec == old(spec).(phase := Idle)
    {
      var updated := store.UpdateAction(id, update);
      if updated.Err? {
        Follow(Abandon);
        return Err;
      }
      Follow(step);
      return Ok(Outcome(updated.value, already));
    }

    method Abort() returns (out: Result<Outcome>)
      requires Valid() && Enabled(kind, spec, Abandon)
      modifies this`steps, this`spec
      ensures Valid() && out.Err? && spec == old(spec).(phase := Idle)
    {
      Follow(Abandon);
      return Err;
    }

    method Replay() returns (out: Result<Outcome>)
      requires Valid() && spec.rec.Some? && spec.phase.Entered?
      modifies this`steps, this`spec
      ensures Valid() && spec == old(spec).(phase := Idle)
      ensures out == Ok(Outcome(spec.rec.value, true))
      ensures !spec.rec.value.started ==> Matches(spec.rec.value)
    {
      Follow(Abandon);
      if !spec.rec.value.started {
        RecordMatches(Dash(0, None, false));
      }
      return Ok(Outcome(store.actions[id], true));
    }

    /** Completes the record when the dashboard proves the request, else leaves it open. */
    method FinishFromDashboard(after: Dash, fallback: ActionStatus, reconciling: bool) returns (out: Result<Outcome>)
      requires Valid() && spec.rec.Some? && spec.phase == Checked(after, fallback) && Truthful(after, plat)
      modifies this`steps, this`spec, this`troubles, store`actions, store`disk, store`faults
      ensures Valid() && spec.phase.Idle? && Seen() == old(Seen())
      ensures Faults() >= old(Faults()) && (out.Err? ==> Faults() > old(Faults()))
      ensures out.Ok? ==> spec.rec == Some(out.value.action)
      ensures out.Ok? ==> Ended(kind, old(spec.rec.value), after, fallback, out.value.action)
      ensures out.Ok? ==> Matches(out.value.action)
      ensures out.Err? ==> spec.rec == old(spec.rec)
    {
      if Proves(kind, store.actions[id], after) {
        out := CompleteProven(after, fallback);
      } else {
        out := Conclude(a => LeftOpen(a, fallback), reconciling, LeaveOpen);
      }
      if out.Ok? {
        RecordMatches(after);
      }
    }

    /** The snapshot is stored before the record is completed. */
    method CompleteProven(after: Dash, fallback: ActionStatus) returns (out: Result<Outcome>)
      requires Valid() && spec.rec.Some? && spec.phase == Checked(after, fallback)
      requires Proves(kind, spec.rec.value, after)
      modifies this`steps, this`spec, this`troubles, store`actions, store`disk, store`faults
      ensures Valid() && spec.phase.Idle? && Seen() == old(Seen())
      ensures Faults() >= old(Faults()) && (out.Err? ==> Faults() > old(Faults()))
      ensures out.Ok? ==>
                && spec.rec == Some(out.value.action)
                && out.value.action ==
                   old(spec.rec.value).(status := ActionCompleted, started := false, retryable := false)
      ensures out.Err? ==> spec.rec == old(spec.rec)
    {
      var snapshotStored: bool := *;
      if !snapshotStored {
        troubles := troubles + 1;
        out := Abort();
        return;
      }
      out := Conclude(a => Completed(a), false, Complete);
    }

    /** One dashboard after the request: without one nothing is decided yet. */
    method LookAndFinish(fallback: ActionStatus, reconciling: bool) returns (seen: bool, out: Result<Outcome>)
      requires Valid() && spec.rec.Some?
      requires spec.phase == Settling(fallback)
               || (spec.phase.Reconciling? && fallback == ReconcileFallback(spec.rec.value))
      modifies this`plat, this`steps, this`spec, this`looks, this`troubles, store`actions, store`disk, store`faults
      ensures Valid() && spec.wire == old(spec.wire) && Faults() >= old(Faults())
      ensures !seen ==> out.Err? && Faults() > old(Faults()) && spec == old(spec).(plat := plat)
      ensures seen ==> spec.phase.Idle? && (out.Err? ==> Faults() > old(Faults()))
      ensures out.Ok? ==>
                && spec.rec == Some(out.value.action) && Matches(out.value.action)
                && Settled(kind, old(Seen()), Seen(), old(spec.rec.value), fallback, out.value.action)
    {
      var after := Dashboard();
      if after.None? {
        return false, Err;
      }
      Follow(LookAfter(after.value));
      out := FinishFromDashboard(after.value, fallback, reconciling);
      seen := true;
    }

    method Reconciliation() returns (out: Result<Outcome>)
      requires Valid() && spec.rec.Some? && spec.phase.Reconciling?
      modifies this`plat, this`steps, this`spec, this`looks, this`troubles, store`actions, store`disk, store`faults
      ensures Valid() && spec.phase.Idle? && spec.wire == old(spec.wire)
      ensures Faults() >= old(Faults()) && (out.Err? ==> Faults() > old(Faults()))
      ensures out.Ok? ==> spec.rec == Some(out.value.action)
      ensures out.Ok? ==> Reconciled(kind, old(Seen()), Seen(), old(spec.rec.value), out.value.action)
      ensures out.Ok? ==> Matches(out.value.action)
    {
      var ok := AcquireLottery();
      if !ok {
        out := Abort();
        return;
      }
      var seen;
      seen, out := LookAndFinish(ReconcileFallback(store.actions[id]), true);
      if !seen {
        out := Abort();
      }
    }

    method PreflightError(retryable: bool) returns (out: Result<Outcome>)
      requires Valid() && spec.rec.Some? && spec.phase.Fresh?
      modifies this`steps, this`spec, this`troubles, store`actions, store`disk, store`faults
      ensures Valid() && spec.phase.Idle? && spec.wire == old(spec.wire)
      ensures Faults() >= old(Faults()) && (out.Err? ==> Faults() > old(Faults()))
      ensures out.Ok? ==>
                && spec.rec == Some(out.value.action)
                && out.value.action ==
                   old(spec.rec.value).(status := ActionFailed, retryable := retryable, started := false)
    {
      out := Conclude(a => FailedWith(a, retryable), false, PreflightFail(retryable));
    }

    /** The common tail: evidence, started mark, request, proof. */
    method Perform() returns (out: Result<Outcome>)
      requires Valid() && spec.rec.Some? && spec.phase.Fresh?
      modifies this`plat, this`steps, this`spec, this`looks, this`troubles, store`actions, store`disk, store`faults
      ensures Valid() && spec.phase.Idle? && |spec.wire| <= |old(spec.wire)| + 2
      ensures Faults() >= old(Faults()) && (out.Err? ==> Faults() > old(Faults()))
      ensures Faults() == old(Faults()) ==>
                out.Ok? && Performed(kind, old(Seen()), Seen(), old(spec.rec.value), out.value.action)
      ensures out.Ok? ==> spec.rec == Some(out.value.action)
      ensures out.Ok? ==> out.value.action.idemKey == old(spec.rec.value).idemKey
      ensures Faults() == old(Faults()) ==> Matches(out.value.action)
    {
      var before := LookFirst();
      if before.None? {
        var retryable: bool := *;
        out := PreflightError(retryable);
      } else {
        out := Request(before.value);
      }
    }

    /** A session and the dashboard before the request. */
    method LookFirst() returns (before: Option<Dash>)
      requires Valid() && spec.phase.Fresh?
      modifies this`plat, this`steps, this`spec, this`looks, this`troubles
      ensures Valid() && spec.rec == old(spec.rec) && spec.wire == old(spec.wire) && Faults() >= old(Faults())
      ensures before.None? ==> spec.phase.Fresh? && Faults() > old(Faults())
      ensures before.Some? ==> spec.phase == Looked(before.value) && looks == old(looks) + [before.value]
    {
      var ok := AcquireLottery();
      if !ok {
        return None;
      }
      before := Dashboard();
      if before.Some? {
        Follow(LookBefore(before.value));
      }
    }

    /** A record update in the middle of a call; a failed write ends the call. */
    method Advance(update: Action -> Action, ghost step: Step, ghost next: Phase) returns (ok: bool)
      requires Valid() && spec.rec.Some? && Enabled(kind, spec, step) && Enabled(kind, spec, Abandon)
      requires Apply(kind, spec, step) == spec.(rec := Some(update(spec.rec.value)), phase := next)
      modifies this`steps, this`spec, this`troubles, store`actions, store`disk, store`faults
      ensures Valid()
      ensures Faults() >= old(Faults()) && (!ok ==> Faults() > old(Faults()))
      ensures spec == if ok then old(spec).(rec := Some(update(old(spec.rec.value))), phase := next)
                      else old(spec).(phase := Idle)
    {
      var updated := store.UpdateAction(id, update);
      ok := updated.Ok?;
      if ok {
        Follow(step);
      } else {
        Follow(Abandon);
      }
    }

    /** The pass was found unlocked: the record is completed first; the call still fails when the snapshot does. */
    method RecordUnlocked() returns (out: Result<Outcome>)
      requires Valid() && spec.rec.Some? && Enabled(kind, spec, FoundUnlocked)
      modifies this`steps, this`spec, this`troubles, store`actions, store`disk, store`faults
      ensures Valid() && spec.phase.Idle? && Seen() == old(Seen())
      ensures Faults() >= old(Faults()) && (out.Err? ==> Faults() > old(Faults()))
      ensures out.Ok? ==>
                && spec.rec == Some(out.value.action)
                && out.value.action ==
                   old(spec.rec.value).(status := ActionCompleted, started := false, retryable := false)
    {
      out := Conclude(a => Completed(a), false, FoundUnlocked);
      var snapshotStored: bool := *;
      if !snapshotStored {
        troubles := troubles + 1;
        out := Err;
      }
    }

    /** What the dashboard shows before the request is durable before anything is sent. */
    method RecordEvidence(before: Dash) returns (ok: bool)
      requires Valid() && spec.rec.Some? && spec.phase == Looked(before)
      modifies this`steps, this`spec, this`troubles, store`actions, store`disk, store`faults
      ensures Valid() && Seen() == old(Seen()) && spec.phase == if ok then Prepared(before) else Idle
      ensures Faults() >= old(Faults()) && (!ok ==> Faults() > old(Faults()))
      ensures ok ==>
                var b := old(spec.rec.value);
                spec.rec == Some(ArmedWith(kind, b, before).(started := b.started, attempts := b.attempts))
    {
      ok := Advance(a => WithEvidence(kind, a, before), Prepare, Prepared(before));
    }

    /** Records the evidence and the started mark, then sends. */
    method Request(before: Dash) returns (out: Result<Outcome>)
      requires Valid() && spec.rec.Some? && spec.phase == Looked(before)
      modifies this`plat, this`steps, this`spec, this`looks, this`troubles, store`actions, store`disk, store`faults
      ensures Valid() && spec.phase.Idle? && |spec.wire| <= |old(spec.wire)| + 2
      ensures Faults() >= old(Faults()) && (out.Err? ==> Faults() > old(Faults()))
      ensures Faults() == old(Faults()) ==>
                out.Ok? && Requested(kind, old(Seen()), Seen(), old(spec.rec.value), before, out.value.action)
      ensures out.Ok? ==> spec.rec == Some(out.value.action)
      ensures out.Ok? ==> out.value.action.idemKey == old(spec.rec.value).idemKey
      ensures Faults() == old(Faults()) ==> Matches(out.value.action)
    {
      var ok := RecordEvidence(before);
      if !ok {
        return Err;
      }
      ghost var c := ArmedWith(kind, old(spec.rec.value), before);
      if kind.Unlock? && before.unlocked {
        out := RecordUnlocked();
      } else {
        out := ArmAndSend();
      }
    }

    /** The started mark is durable before the request goes out. */
    method ArmAndSend() returns (out: Result<Outcome>)
      requires Valid() && spec.rec.Some? && spec.phase.Prepared?
      modifies this`plat, this`steps, this`spec, this`looks, this`troubles, store`actions, store`disk, store`faults
      ensures Valid() && spec.phase.Idle? && |spec.wire| <= |old(spec.wire)| + 2
      ensures Faults() >= old(Faults()) && (out.Err? ==> Faults() > old(Faults()))
      ensures out.Ok? ==> spec.rec == Some(out.value.action)
      ensures out.Ok? ==> out.value.action.idemKey == old(spec.rec.value).idemKey
      ensures Faults() == old(Faults()) ==>
                var r := old(spec.rec.value);
                Sent(kind, old(Seen()), Seen(), r.(started := true, attempts := r.attempts + 1), out.value.action)
      ensures Faults() == old(Faults()) ==> Matches(out.value.action)
    {
      var ok := Advance(a => Started(a), Arm, Armed);
      if !ok {
        return Err;
      }
      out := SendAndSettle();
    }

    /** An explicit refusal: the record may start over, and its key was not charged. */
    method RecordRefusal() returns (out: Result<Outcome>)
      requires Valid() && spec.rec.Some? && spec.phase.Refusing?
      modifies this`steps, this`spec, this`troubles, store`actions, store`disk, store`faults
      ensures Valid() && spec.phase.Idle? && spec.wire == old(spec.wire)
      ensures Faults() >= old(Faults()) && (out.Err? ==> Faults() > old(Faults()))
      ensures out.Ok? ==>
                && spec.rec == Some(out.value.action)
                && out.value.action ==
                   old(spec.rec.value).(status := ActionFailed, retryable := true, started := false)
      ensures out.Ok? ==> Matches(out.value.action)
    {
      out := Conclude(a => FailedWith(a, true), false, Refuse);
      if out.Ok? {
        RecordMatches(Dash(0, None, false));
      }
    }

    /** The request under the durably started key, and what its answer leads to. */
    method SendAndSettle() returns (out: Result<Outcome>)
      requires Valid() && spec.rec.Some? && spec.phase.Armed?
      modifies this`plat, this`steps, this`spec, this`looks, this`troubles, store`actions, store`disk, store`faults
      ensures Valid() && spec.phase.Idle? && |spec.wire| <= |old(spec.wire)| + 2
      ensures Faults() >= old(Faults()) && (out.Err? ==> Faults() > old(Faults()))
      ensures Faults() == old(Faults()) ==>
                out.Ok? && Sent(kind, old(Seen()), Seen(), old(spec.rec.value), out.value.action)
      ensures out.Ok? ==> spec.rec == Some(out.value.action)
      ensures out.Ok? ==> out.value.action.idemKey == old(spec.rec.value).idemKey
      ensures Faults() == old(Faults()) ==> Matches(out.value.action)
    {
      var result := PostWithRecovery();
      if result.RefusedAsInsufficient? {
        out := RecordRefusal();
        return;
      }
      out := Settle(SettleFallback(result.Posted? && result.pending));
    }

    /** After an answered or unclear request: look, then finish with or without proof. */
    method Settle(fallback: ActionStatus) returns (out: Result<Outcome>)
      requires Valid() && spec.rec.Some? && spec.phase == Settling(fallback)
      modifies this`plat, this`steps, this`spec, this`looks, this`troubles, store`actions, store`disk, store`faults
      ensures Valid() && spec.phase.Idle? && spec.wire == old(spec.wire)
      ensures Faults() >= old(Faults()) && (out.Err? ==> Faults() > old(Faults()))
      ensures out.Ok? ==>
                out.value.action.status == ActionCompleted
                || (out.value.action.status == fallback && out.value.action.started)
      ensures out.Ok? ==> spec.rec == Some(out.value.action)
      ensures out.Ok? ==> out.value.action.idemKey == old(spec.rec.value).idemKey
      ensures Faults() == old(Faults()) ==>
                && Settled(kind, old(Seen()), Seen(), old(spec.rec.value), fallback, out.value.action)
                && Matches(out.value.action)
    {
      var seen;
      seen, out := LookAndFinish(fallback, false);
      if !seen {
        out := Conclude(a => LeftOpen(a, fallback), false, LeaveOpen);
      }
    }

    /** The record of the day, found or created. */
    method Begin() returns (r: Result<(Action, bool)>)
      requires Valid() && spec.phase.Idle?
      modifies this`steps, this`spec, store`actions, store`nextKey, store`disk, store`faults
      ensures Valid() && Seen() == old(Seen()) && Faults() >= old(Faults())
      ensures r.Err? ==>
                spec.phase.Idle? && spec.rec == old(spec.rec) && (id.account != "" ==> Faults() > old(Faults()))
      ensures r.Ok? ==> spec.rec == Some(r.value.0) && id.account != ""
      ensures r.Ok? && !r.value.1 ==>
                spec.phase.Entered? && spec.rec == old(spec.rec) && spec.minted == old(spec.minted)
      ensures r.Ok? && r.value.1 ==>
                && spec.phase.Fresh? && old(spec.rec).None?
                && r.value.0 == NewAction(r.value.0.idemKey) && r.value.0.idemKey >= old(spec.minted)
    {
      Follow(Enter);
      r := store.GetOrCreateAction(id);
      if r.Err? {
        Follow(Abandon);
      } else if r.value.1 {
        Follow(Create(r.value.0.idemKey));
      }
    }

    /** One purchase call under the action lock. */
    method PurchaseDraw() returns (out: Result<Outcome>)
      requires Valid() && kind.Purchase? && spec.phase.Idle?
      modifies this`plat, this`steps, this`spec, this`looks, this`twins, this`troubles, store`actions, store`nextKey
      modifies store`disk, store`faults
      ensures Valid() && spec.phase.Idle? && |spec.wire| <= |old(spec.wire)| + 2
      ensures Faults() >= old(Faults()) && (out.Err? && id.account != "" ==> Faults() > old(Faults()))
      ensures out.Ok? ==> spec.rec == Some(out.value.action)
      // faults or not, a started or refused-for-good record sends nothing
      ensures old(spec.rec).Some? && Dispatch(Purchase, old(spec.rec).value) in {ToReconcile, ToReplay} ==>
                spec.wire == old(spec.wire)
      // without a fault, the branch the record calls for is the one that was run
      ensures id.account != "" && Faults() == old(Faults()) ==>
                Handled(kind, old(spec.rec), old(spec.minted), old(Seen()), Seen(), out.value)
      ensures id.account != "" && Faults() == old(Faults()) ==> Matches(out.value.action)
    {
      var got := Begin();
      if got.Err? {
        out := Err;
      } else if got.value.1 {
        out := Perform();
      } else {
        out := PurchaseExisting(got.value.0);
      }
    }

    /** Whether the record was updated after this call was made: a concurrent duplicate finished meanwhile. */
    method FinishedMeanwhile() returns (b: bool)
      modifies this`twins
      ensures twins == old(twins) + if b then 1 else 0
    {
      b := *;
      twins := twins + if b then 1 else 0;
    }

    method PurchaseExisting(action: Action) returns (out: Result<Outcome>)
      requires Valid() && kind.Purchase? && spec.phase.Entered? && spec.rec == Some(action)
      modifies this`plat, this`steps, this`spec, this`looks, this`twins, this`troubles, store`actions, store`nextKey
      modifies store`disk, store`faults
      ensures Valid() && spec.phase.Idle? && |spec.wire| <= |old(spec.wire)| + 2
      ensures Faults() >= old(Faults()) && (out.Err? ==> Faults() > old(Faults()))
      ensures out.Ok? ==> spec.rec == Some(out.value.action)
      ensures Dispatch(Purchase, action) in {ToReconcile, ToReplay} ==> spec.wire == old(spec.wire)
      ensures Faults() == old(Faults()) ==>
                Handled(kind, old(spec.rec), old(spec.minted), old(Seen()), Seen(), out.value)
      ensures Faults() == old(Faults()) ==> Matches(out.value.action)
    {
      if action.status.ActionUnknown? || action.started {
        Follow(Reconcile);
        out := Reconciliation();
      } else if action.status.ActionCompleted? || (action.status.ActionFailed? && action.retryable) {
        var justUpdated := FinishedMeanwhile();
        if justUpdated {
          out := Replay();
        } else {
          out := RotateAndPerform();
        }
      } else if action.status.ActionPending? {
        Follow(Resume);
        out := Perform();
      } else {
        out := Replay();
      }
    }

    /** One pass-unlock call under the action lock; a completed pass is never requested again. */
    method UnlockDailyPass() returns (out: Result<Outcome>)
      requires Valid() && kind.Unlock? && spec.phase.Idle?
      modifies this`plat, this`steps, this`spec, this`looks, this`troubles, store`actions, store`nextKey, store`disk
      modifies store`faults
      ensures Valid() && spec.phase.Idle? && |spec.wire| <= |old(spec.wire)| + 2
      ensures Faults() >= old(Faults()) && (out.Err? && id.account != "" ==> Faults() > old(Faults()))
      ensures out.Ok? ==> spec.rec == Some(out.value.action)
      ensures old(spec.rec).Some? && Dispatch(Unlock, old(spec.rec).value) in {ToReconcile, ToReplay} ==>
                spec.wire == old(spec.wire)
      ensures id.account != "" && Faults() == old(Faults()) ==>
                Handled(kind, old(spec.rec), old(spec.minted), old(Seen()), Seen(), out.value)
      ensures id.account != "" && Faults() == old(Faults()) ==> Matches(out.value.action)
    {
      var got := Begin();
      if got.Err? {
        out := Err;
      } else if got.value.1 {
        out := Perform();
      } else {
        out := UnlockExisting(got.value.0);
      }
    }

    method UnlockExisting(action: Action) returns (out: Result<Outcome>)
      requires Valid() && kind.Unlock? && spec.phase.Entered? && spec.rec == Some(action)
      modifies this`plat, this`steps, this`spec, this`looks, this`troubles, store`actions, store`nextKey, store`disk
      modifies store`faults
      ensures Valid() && spec.phase.Idle? && |spec.wire| <= |old(spec.wire)| + 2
      ensures Faults() >= old(Faults()) && (out.Err? ==> Faults() > old(Faults()))
      ensures out.Ok? ==> spec.rec == Some(out.value.action)
      ensures Dispatch(Unlock, action) in {ToReconcile, ToReplay} ==> spec.wire == old(spec.wire)
      ensures Faults() == old(Faults()) ==>
                Handled(kind, old(spec.rec), old(spec.minted), old(Seen()), Seen(), out.value)
      ensures Faults() == old(Faults()) ==> Matches(out.value.action)
    {
      if action.status.ActionCompleted? {
        out := Replay();
      } else if action.status.ActionUnknown? || action.started {
        Follow(Reconcile);
        out := Reconciliation();
      } else if action.status.ActionPending? {
        Follow(Resume);
        out := Perform();
      } else if action.status.ActionFailed? && action.retryable {
        out := RotateAndPerform();
      } else {
        out := Replay();
      }
    }

    /** A finished or refused record starts over under a new key. */
    method RotateAndPerform() returns (out: Result<Outcome>)
      requires Valid() && spec.phase.Entered? && spec.rec.Some? && Dispatch(kind, spec.rec.value) == ToRotate
      requires Repeatable(spec.rec.value)
      modifies this`plat, this`steps, this`spec, this`looks, this`troubles, store`actions, store`nextKey, store`disk
      modifies store`faults
      ensures Valid() && spec.phase.Idle? && |spec.wire| <= |old(spec.wire)| + 2
      ensures Faults() >= old(Faults()) && (out.Err? ==> Faults() > old(Faults()))
      ensures out.Ok? ==> spec.rec == Some(out.value.action)
      ensures Faults() == old(Faults()) ==>
                && out.value.action.idemKey >= old(spec.minted)
                && Performed(kind, old(Seen()), Seen(), NewAction(out.value.action.idemKey), out.value.action)
      ensures Faults() == old(Faults()) ==> Matches(out.value.action)
    {
      var rotated := store.RotateRepeatableAction(id);
      if rotated.Err? {
        out := Abort();
        return;
      }
      Follow(Rotate(rotated.value.idemKey));
      out := Perform();
    }
  }
}
