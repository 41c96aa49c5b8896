/**
 When a started purchase can still finish: a charge is always visible to the next dashboard read, so a
 record that stays started was never charged, and it can finish exactly as long as its key is charged
 or may still be charged.
 */
module PaidRecovery {
  import opened Prelude
  import opened State
  import opened PaidProtocol

  // ----- the evidence of a started purchase -----

  /** A started purchase recorded the day's count before its request; a charge under its key raised the count since. */
  ghost predicate Evident(s: Sys) {
    && (s.phase.Looked? ==> s.plat.today >= s.phase.before.today)
    && (s.phase.Prepared? && s.rec.Some? ==>
          s.rec.value.purchaseBeforeToday.Some? && s.plat.today >= s.rec.value.purchaseBeforeToday.value)
    && (s.rec.Some? && s.rec.value.started ==>
          && s.rec.value.purchaseBeforeToday.Some?
          && s.plat.today >= s.rec.value.purchaseBeforeToday.value
          && (s.rec.value.idemKey in s.plat.charged ==> s.plat.today > s.rec.value.purchaseBeforeToday.value))
  }

  lemma StepStaysEvident(s: Sys, step: Step)
    requires OpenIsCurrent(Purchase, s) && RecordShape(Purchase, s) && PhaseShape(Purchase, s)
    requires Evident(s) && Enabled(Purchase, s, step)
    ensures Evident(Apply(Purchase, s, step))
  {}

  lemma {:induction false} RunStaysEvident(s: Sys, steps: seq<Step>)
    requires Inv(Purchase, s) && Evident(s) && Admissible(Purchase, s, steps)
    ensures Evident(Run(Purchase, s, steps))
  {
    if steps != [] {
      var front := steps[..|steps| - 1];
      RunStaysEvident(s, front);
      RunKeepsInv(Purchase, s, front);
      StepStaysEvident(Run(Purchase, s, front), Last(steps));
    }
  }

  /** On every day, a charged key that is still marked started is proven by whatever truthful dashboard is read next. */
  lemma ChargedIsProven(dawn: Sys, steps: seq<Step>, d: Dash)
    requires Dawn(dawn) && Admissible(Purchase, dawn, steps)
    requires var s := Run(Purchase, dawn, steps);
             s.rec.Some? && s.rec.value.started && s.rec.value.idemKey in s.plat.charged && Truthful(d, s.plat)
    ensures Proves(Purchase, Run(Purchase, dawn, steps).rec.value, d)
  {
    RunStaysEvident(dawn, steps);
  }

  /**
   A record that is not started, or that the dashboard just read does not prove, is marked completed
   exactly when the platform has charged its key.
   */
  lemma CompletedIffCharged(dawn: Sys, steps: seq<Step>, d: Dash)
    requires Dawn(dawn) && Admissible(Purchase, dawn, steps)
    requires var s := Run(Purchase, dawn, steps);
             s.rec.Some? && (s.rec.value.started ==> Truthful(d, s.plat) && !Proves(Purchase, s.rec.value, d))
    ensures var s := Run(Purchase, dawn, steps);
            s.rec.value.status.ActionCompleted? <==> s.rec.value.idemKey in s.plat.charged
  {
    RunKeepsInv(Purchase, dawn, steps);
    var s := Run(Purchase, dawn, steps);
    if s.rec.value.started && s.rec.value.idemKey in s.plat.charged {
      ChargedIsProven(dawn, steps, d);
    }
  }

  // ----- exactly when a started purchase can still finish -----

  /** A started purchase between calls, in a reachable situation. */
  ghost predicate LeftStarted(s: Sys) {
    Inv(Purchase, s) && Evident(s) && s.phase.Idle? && s.rec.Some? && s.rec.value.started
  }

  ghost predicate CanFinish(s: Sys) {
    exists more :: FinishesBy(s, more)
  }

  ghost predicate FinishesBy(s: Sys, more: seq<Step>) {
    Admissible(Purchase, s, more) && |Run(Purchase, s, more).completions| > |s.completions|
  }

  lemma Extend(kind: Paid, s: Sys, steps: seq<Step>, step: Step) returns (more: seq<Step>)
    requires Admissible(kind, s, steps) && Enabled(kind, Run(kind, s, steps), step)
    ensures more == steps + [step] && Admissible(kind, s, more)
    ensures Run(kind, s, more) == Apply(kind, Run(kind, s, steps), step)
  {
    more := steps + [step];
    RunSnoc(kind, s, steps, step);
  }

  /** The next call reads a dashboard that shows today's count, and completes the record. */
  lemma ReconcileFinishes(s: Sys, steps: seq<Step>) returns (more: seq<Step>)
    requires Admissible(Purchase, s, steps) && LeftStarted(Run(Purchase, s, steps))
    requires var t := Run(Purchase, s, steps); t.rec.value.idemKey in t.plat.charged && t.completions == s.completions
    ensures FinishesBy(s, more)
  {
    more := Extend(Purchase, s, steps, Enter);
    more := Extend(Purchase, s, more, Reconcile);
    more := Extend(Purchase, s, more, LookAfter(Dash(Run(Purchase, s, steps).plat.today, None, false)));
    more := Extend(Purchase, s, more, Complete);
  }

  /** A started purchase can still be recorded as done exactly while its key is charged or may still be charged. */
  lemma FinishesIffChargeable(s: Sys)
    requires LeftStarted(s)
    ensures CanFinish(s) <==> s.rec.value.idemKey in s.plat.open || s.rec.value.idemKey in s.plat.charged
  {
    var k := s.rec.value.idemKey;
    if k in s.plat.charged {
      var more := ReconcileFinishes(s, []);
    } else if k in s.plat.open {
      var more := Extend(Purchase, s, [], Charge(k, 1));
      RunKeepsInv(Purchase, s, more);
      RunStaysEvident(s, more);
      more := ReconcileFinishes(s, more);
    } else {
      forall more | Admissible(Purchase, s, more) ensures !FinishesBy(s, more) {
        UnchargeableStaysStuck(s, more);
      }
    }
  }

  /**
   The other side exists: a process that dies between the started mark and the request leaves such a
   record behind.
   */
  lemma StuckIsReached(dawn: Sys) returns (steps: seq<Step>)
    requires Dawn(dawn)
    ensures Admissible(Purchase, dawn, steps)
    ensures LeftStarted(Run(Purchase, dawn, steps)) && !CanFinish(Run(Purchase, dawn, steps))
  {
    steps := ToPrepared(dawn);
    steps := Extend(Purchase, dawn, steps, Arm);
    steps := Extend(Purchase, dawn, steps, Abandon);
    RunKeepsInv(Purchase, dawn, steps);
    RunStaysEvident(dawn, steps);
    FinishesIffChargeable(Run(Purchase, dawn, steps));
  }

  lemma ToPrepared(dawn: Sys) returns (steps: seq<Step>)
    requires Dawn(dawn)
    ensures Admissible(Purchase, dawn, steps)
    ensures var s := Run(Purchase, dawn, steps); s.phase.Prepared? && s.rec.Some? && s.plat == dawn.plat
  {
    steps := Extend(Purchase, dawn, [], Enter);
    steps := Extend(Purchase, dawn, steps, Create(dawn.minted));
    steps := Extend(Purchase, dawn, steps, LookBefore(Dash(dawn.plat.today, None, false)));
    steps := Extend(Purchase, dawn, steps, Prepare);
  }

  // ----- the same for the pass -----

  /** Whatever happened before, a pass completes exactly on a dashboard that shows it unlocked. */
  lemma PassCompletesIffShown(dawn: Sys, steps: seq<Step>)
    requires Dawn(dawn) && Admissible(Unlock, dawn, steps) && Run(Unlock, dawn, steps).phase.Checked?
    ensures var s := Run(Unlock, dawn, steps);
            && (Enabled(Unlock, s, Complete) <==> s.phase.after.unlocked)
            && (Enabled(Unlock, s, LeaveOpen) <==> !s.phase.after.unlocked)
  {
    RunKeepsInv(Unlock, dawn, steps);
  }

  /** A started pass between calls, in a reachable situation. */
  ghost predicate PassLeftStarted(s: Sys) {
    Inv(Unlock, s) && s.phase.Idle? && s.rec.Some? && s.rec.value.started
  }

  /** A run in which nobody unlocks the pass elsewhere. */
  ghost predicate Alone(more: seq<Step>) {
    forall i :: 0 <= i < |more| ==> !more[i].UnlockElsewhere?
  }

  ghost predicate PassFinishesBy(s: Sys, more: seq<Step>) {
    Admissible(Unlock, s, more) && Alone(more) && |Run(Unlock, s, more).completions| > |s.completions|
  }

  /** Without help from elsewhere, a pass that is locked and can no longer be charged stays as it is. */
  lemma {:induction false} LockedPassStaysStarted(t: Sys, more: seq<Step>)
    requires PassLeftStarted(t) && Admissible(Unlock, t, more) && Alone(more)
    requires !t.plat.unlocked && t.rec.value.idemKey !in t.plat.open
    ensures var u := Run(Unlock, t, more);
            u.plat.open == {} && !u.plat.unlocked && u.completions == t.completions && HeldBack(t, u)
            && (u.phase.Checked? ==> !u.phase.after.unlocked)
  {
    if more == [] {
      assert t.plat.open == {};
    } else {
      var front := more[..|more| - 1];
      LockedPassStaysStarted(t, front);
      RunKeepsInv(Unlock, t, front);
      var u, step := Run(Unlock, t, front), Last(more);
      assert more[|more| - 1] == step;
      HeldBackStep(Unlock, t, u, step);
    }
  }

  /** The next call reads a dashboard that shows the pass unlocked, and completes the record. */
  lemma PassReconcileFinishes(s: Sys, steps: seq<Step>) returns (more: seq<Step>)
    requires Admissible(Unlock, s, steps) && Alone(steps) && PassLeftStarted(Run(Unlock, s, steps))
    requires var t := Run(Unlock, s, steps); t.plat.unlocked && t.completions == s.completions
    ensures PassFinishesBy(s, more)
  {
    more := Extend(Unlock, s, steps, Enter);
    more := Extend(Unlock, s, more, Reconcile);
    more := Extend(Unlock, s, more, LookAfter(Dash(Run(Unlock, s, steps).plat.today, None, true)));
    more := Extend(Unlock, s, more, Complete);
  }

  /**
   A started pass can still be recorded as done, without anyone unlocking it elsewhere, exactly while it is
   unlocked or its key may still be charged.
   */
  lemma PassFinishesIffUnlockable(s: Sys)
    requires PassLeftStarted(s)
    ensures (exists more :: PassFinishesBy(s, more)) <==> s.plat.unlocked || s.rec.value.idemKey in s.plat.open
  {
    var k := s.rec.value.idemKey;
    if s.plat.unlocked {
      var more := PassReconcileFinishes(s, []);
    } else if k in s.plat.open {
      var more := Extend(Unlock, s, [], Charge(k, 1));
      RunKeepsInv(Unlock, s, more);
      more := PassReconcileFinishes(s, more);
    } else {
      forall more | Admissible(Unlock, s, more) && Alone(more) ensures !PassFinishesBy(s, more) {
        LockedPassStaysStarted(s, more);
      }
    }
  }

  // ----- how a key that is not current was resolved -----

  /** The platform said the balance is insufficient, or the renewal after its 401/403 failed with such a text. */
  ghost predicate SaidInsufficient(s: Sys, k: IdemKey) {
    k in s.excused || exists i :: AnsweredInsufficient(s, k, i)
  }

  ghost predicate AnsweredInsufficient(s: Sys, k: IdemKey, i: nat) {
    i < |s.wire| && s.wire[i].key == k && s.wire[i].reply == Some(Insufficient)
  }

  ghost predicate Resolved(s: Sys, k: IdemKey) {
    k in s.completions || SaidInsufficient(s, k) || (Current(s, k) && s.rec.value.started)
  }

  ghost predicate AllResolved(s: Sys) {
    && (forall i :: 0 <= i < |s.wire| ==> Resolved(s, s.wire[i].key))
    && (s.phase.Refusing? && s.rec.Some? ==> SaidInsufficient(s, s.rec.value.idemKey))
    && (s.phase.Waiting? ==> |s.wire| > 0 && Last(s.wire).reply.None?)
  }

  /** An explicit refusal stays on the wire. */
  lemma StaysSaid(kind: Paid, s: Sys, step: Step, k: IdemKey)
    requires AllResolved(s) && Enabled(kind, s, step) && SaidInsufficient(s, k)
    ensures SaidInsufficient(Apply(kind, s, step), k)
  {
    if i: nat :| AnsweredInsufficient(s, k, i) {
      assert AnsweredInsufficient(Apply(kind, s, step), k, i);
    }
  }

  lemma StepStaysResolved(kind: Paid, s: Sys, step: Step)
    requires Inv(kind, s) && AllResolved(s) && Enabled(kind, s, step)
    ensures AllResolved(Apply(kind, s, step))
  {
    var t := Apply(kind, s, step);
    if step.Answer? && step.reply.Insufficient? {
      assert AnsweredInsufficient(t, Last(s.wire).key, |s.wire| - 1);
    }
    if s.phase.Refusing? && s.rec.Some? {
      StaysSaid(kind, s, step, s.rec.value.idemKey);
    }
    forall i | 0 <= i < |t.wire| ensures Resolved(t, t.wire[i].key) {
      if i < |s.wire| {
        StepKeepsResolved(kind, s, step, s.wire[i].key);
      }
    }
  }

  lemma StepKeepsResolved(kind: Paid, s: Sys, step: Step, k: IdemKey)
    requires Inv(kind, s) && AllResolved(s) && Enabled(kind, s, step) && Resolved(s, k)
    ensures Resolved(Apply(kind, s, step), k)
  {
    if SaidInsufficient(s, k) {
      StaysSaid(kind, s, step, k);
    }
  }

  lemma {:induction false} RunStaysResolved(kind: Paid, s: Sys, steps: seq<Step>)
    requires Inv(kind, s) && AllResolved(s) && Admissible(kind, s, steps)
    ensures AllResolved(Run(kind, s, steps))
  {
    if steps != [] {
      var front := steps[..|steps| - 1];
      RunStaysResolved(kind, s, front);
      RunKeepsInv(kind, s, front);
      StepStaysResolved(kind, Run(kind, s, front), Last(steps));
    }
  }

  /**
   Every key ever sent is proven by the dashboard, was explicitly refused for want of balance, or is the
   current key of a record durably marked started. So nothing is sent under a new key while an older one
   is unresolved.
   */
  lemma EveryKeyIsResolved(kind: Paid, dawn: Sys, steps: seq<Step>, i: nat)
    requires Dawn(dawn) && Admissible(kind, dawn, steps) && i < |Run(kind, dawn, steps).wire|
    ensures Resolved(Run(kind, dawn, steps), Run(kind, dawn, steps).wire[i].key)
  {
    RunStaysResolved(kind, dawn, steps);
  }
}
