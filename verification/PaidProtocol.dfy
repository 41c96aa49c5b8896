/**
 The paid-action protocol for one account and one day, as a step system over the durable record,
 the platform and the wire. Steps may interleave with platform steps in any order, and Abandon
 (a crash, a failed write or an error return) may end a call anywhere.
 */
module PaidProtocol {
  import opened Prelude
  import opened State

  datatype Paid = Purchase | Unlock

  /** What one dashboard request reports. */
  datatype Dash = Dash(today: int, remaining: Option<int>, unlocked: bool)

  /** `open` holds the keys the platform has received and may still charge. */
  datatype Platform = Platform(today: int, remaining: int, unlocked: bool, open: set<IdemKey>, charged: set<IdemKey>)

  /** An accepted request may still be pending on the platform's side. */
  datatype Reply = Accepted(pending: bool) | Unauthorized | Insufficient | Lost

  /** One POST: who sent it, what the disk said at that moment, and what came back. */
  datatype Request = Request(key: IdemKey, call: nat, durable: Action, reply: Option<Reply>)

  /** Where the call holding the action lock stands. */
  datatype Phase =
    | Idle
    | Entered
    | Fresh
    | Looked(before: Dash)
    | Prepared(before: Dash)
    | Armed
    | Waiting(retry: bool)
    | Rejected
    | Refusing
    | Settling(fallback: ActionStatus)
    | Reconciling
    | Checked(after: Dash, fallback: ActionStatus)

  /**
   `excused` holds the keys given up because the renewal after their 401/403 failed with an
   insufficient-balance text.
   */
  datatype Sys = Sys(
    rec: Option<Action>,
    phase: Phase,
    call: nat,
    minted: nat,
    plat: Platform,
    wire: seq<Request>,
    completions: seq<IdemKey>,
    excused: set<IdemKey>)

  datatype Step =
    | Enter
    | Create(k: IdemKey)
    | Rotate(k: IdemKey)
    | Resume
    | Reconcile
    | PreflightFail(retryable: bool)
    | LookBefore(d: Dash)
    | Prepare
    | FoundUnlocked
    | Arm
    | Send
    | Answer(reply: Reply)
    | RenewFail(readsInsufficient: bool)
    | Refuse
    | LookAfter(d: Dash)
    | Complete
    | LeaveOpen
    | Abandon
    // the platform and its other users
    | Charge(k: IdemKey, amount: nat)
    | Spend(amount: nat)
    | UnlockElsewhere

  datatype Branch = ToReconcile | ToRotate | ToResume | ToReplay

  /** The switch over an existing record at the head of a call. */
  function Dispatch(kind: Paid, a: Action): Branch {
    match kind
    case Purchase =>
      if a.status.ActionUnknown? || a.started then ToReconcile
      else if a.status.ActionCompleted? then ToRotate
      else if a.status.ActionFailed? && a.retryable then ToRotate
      else if a.status.ActionPending? then ToResume
      else ToReplay
    case Unlock =>
      if a.status.ActionCompleted? then ToReplay
      else if a.status.ActionUnknown? || a.started then ToReconcile
      else if a.status.ActionPending? then ToResume
      else if a.status.ActionFailed? && a.retryable then ToRotate
      else ToReplay
  }

  /** Does the dashboard show that the recorded request went through? */
  predicate Proves(kind: Paid, a: Action, d: Dash) {
    match kind
    case Purchase =>
      || (a.purchaseBeforeToday.Some? && d.today > a.purchaseBeforeToday.value)
      || (a.purchaseBeforeRemaining.Some? && d.remaining.Some? && d.remaining.value > a.purchaseBeforeRemaining.value)
    case Unlock => d.unlocked
  }

  // ----- the record updates of the code -----

  function WithEvidence(kind: Paid, a: Action, d: Dash): Action {
    match kind
    case Purchase => a.(purchaseBeforeToday := Some(d.today), purchaseBeforeRemaining := d.remaining,
                        passBeforeUnlocked := None, retryable := false)
    case Unlock => a.(purchaseBeforeToday := None, purchaseBeforeRemaining := None,
                      passBeforeUnlocked := Some(d.unlocked), retryable := false)
  }

  function Started(a: Action): Action {
    a.(started := true, attempts := a.attempts + 1)
  }

  function FailedWith(a: Action, retryable: bool): Action {
    a.(status := ActionFailed, retryable := retryable, started := false)
  }

  function Completed(a: Action): Action {
    a.(status := ActionCompleted, started := false, retryable := false)
  }

  function LeftOpen(a: Action, fallback: ActionStatus): Action {
    a.(status := fallback, started := true, retryable := false)
  }

  /** An unproven reconciliation keeps a pending record pending; anything else becomes unknown. */
  function ReconcileFallback(a: Action): ActionStatus {
    if a.status.ActionPending? then ActionPending else ActionUnknown
  }

  function SettleFallback(pending: bool): ActionStatus {
    if pending then ActionPending else ActionUnknown
  }

  // ----- the step system -----

  ghost predicate Truthful(d: Dash, p: Platform) {
    && d.today == p.today
    && (d.remaining.Some? ==> d.remaining.value == p.remaining)
    && (d.unlocked ==> p.unlocked)
  }

  ghost predicate Enabled(kind: Paid, s: Sys, step: Step) {
    match step
    case Enter => s.phase.Idle?
    case Create(k) => s.phase.Entered? && s.rec.None? && k >= s.minted
    case Rotate(k) => s.phase.Entered? && s.rec.Some? && Dispatch(kind, s.rec.value) == ToRotate && k >= s.minted
    case Resume => s.phase.Entered? && s.rec.Some? && Dispatch(kind, s.rec.value) == ToResume
    case Reconcile => s.phase.Entered? && s.rec.Some? && Dispatch(kind, s.rec.value) == ToReconcile
    case PreflightFail(_) => s.phase.Fresh? && s.rec.Some?
    case LookBefore(d) => s.phase.Fresh? && Truthful(d, s.plat)
    case Prepare => s.phase.Looked? && s.rec.Some?
    case FoundUnlocked => kind.Unlock? && s.phase.Prepared? && s.phase.before.unlocked && s.rec.Some?
    case Arm => s.phase.Prepared? && s.rec.Some?
    case Send => (s.phase.Armed? || s.phase.Rejected?) && s.rec.Some?
    case Answer(r) =>
      && s.phase.Waiting? && |s.wire| > 0
      // a key the platform refuses is never one it charged
      && (r.Unauthorized? || r.Insufficient? ==> Last(s.wire).key !in s.plat.charged)
    case RenewFail(_) => s.phase.Rejected?
    case Refuse => s.phase.Refusing? && s.rec.Some?
    case LookAfter(d) => (s.phase.Settling? || s.phase.Reconciling?) && s.rec.Some? && Truthful(d, s.plat)
    case Complete => s.phase.Checked? && s.rec.Some? && Proves(kind, s.rec.value, s.phase.after)
    case LeaveOpen =>
      && s.rec.Some?
      && (s.phase.Settling? || (s.phase.Checked? && !Proves(kind, s.rec.value, s.phase.after)))
    case Abandon => !s.phase.Idle?
    case Charge(k, n) => k in s.plat.open && n > 0
    case Spend(_) => true
    case UnlockElsewhere => true
  }

  ghost function Apply(kind: Paid, s: Sys, step: Step): Sys
    requires Enabled(kind, s, step)
  {
    match step
    case Enter => s.(phase := Entered, call := s.call + 1)
    case Create(k) => s.(rec := Some(NewAction(k)), minted := k + 1, phase := Fresh)
    case Rotate(k) => s.(rec := Some(NewAction(k)), minted := k + 1, phase := Fresh)
    case Resume => s.(phase := Fresh)
    case Reconcile => s.(phase := Reconciling)
    case PreflightFail(retryable) => s.(rec := Some(FailedWith(s.rec.value, retryable)), phase := Idle)
    case LookBefore(d) => s.(phase := Looked(d))
    case Prepare => s.(rec := Some(WithEvidence(kind, s.rec.value, s.phase.before)), phase := Prepared(s.phase.before))
    case FoundUnlocked => s.(rec := Some(Completed(s.rec.value)), phase := Idle)
    case Arm => s.(rec := Some(Started(s.rec.value)), phase := Armed)
    case Send =>
      var a := s.rec.value;
      s.(wire := s.wire + [Request(a.idemKey, s.call, a, None)],
         plat := s.plat.(open := s.plat.open + {a.idemKey}),
         phase := Waiting(s.phase.Rejected?))
    case Answer(r) => Answered(s, r)
    case RenewFail(readsInsufficient) =>
      s.(phase := if readsInsufficient then Refusing else Settling(ActionUnknown),
         excused := if readsInsufficient && s.rec.Some? then s.excused + {s.rec.value.idemKey} else s.excused)
    case Refuse => s.(rec := Some(FailedWith(s.rec.value, true)), phase := Idle)
    case LookAfter(d) =>
      s.(phase := Checked(d, if s.phase.Settling? then s.phase.fallback else ReconcileFallback(s.rec.value)))
    case Complete =>
      s.(rec := Some(Completed(s.rec.value)), phase := Idle, completions := s.completions + [s.rec.value.idemKey])
    case LeaveOpen => s.(rec := Some(LeftOpen(s.rec.value, s.phase.fallback)), phase := Idle)
    case Abandon => s.(phase := Idle)
    case Charge(k, n) => s.(plat := Charged(kind, s.plat, k, n))
    case Spend(n) => s.(plat := s.plat.(remaining := s.plat.remaining - n))
    case UnlockElsewhere => s.(plat := s.plat.(unlocked := true))
  }

  /** A refusal ends the key's one outstanding request; a rejected first POST may be retried once. */
  ghost function Answered(s: Sys, r: Reply): Sys
    requires s.phase.Waiting? && |s.wire| > 0
  {
    var n := |s.wire| - 1;
    var refused := r.Unauthorized? || r.Insufficient?;
    s.(wire := s.wire[n := s.wire[n].(reply := Some(r))],
       plat := if refused then s.plat.(open := s.plat.open - {s.wire[n].key}) else s.plat,
       phase :=
         match r
         case Accepted(pending) => Settling(SettleFallback(pending))
         case Unauthorized => if s.phase.retry then Settling(ActionUnknown) else Rejected
         case Insufficient => Refusing
         case Lost => Settling(ActionUnknown))
  }

  /** A key is charged at most once; only a charge raises the counters or unlocks the pass for a fee. */
  function Charged(kind: Paid, p: Platform, k: IdemKey, amount: nat): Platform {
    var paid := p.(open := p.open - {k}, charged := p.charged + {k});
    match kind
    case Purchase => paid.(today := p.today + amount, remaining := p.remaining + amount)
    case Unlock => paid.(unlocked := true)
  }

  /** The morning of the day: no record, nothing sent, nothing charged. */
  ghost predicate Dawn(s: Sys) {
    && s.rec.None? && s.phase.Idle?
    && s.plat.open == {} && s.plat.charged == {} && s.wire == [] && s.completions == [] && s.excused == {}
  }

  ghost predicate Admissible(kind: Paid, s: Sys, steps: seq<Step>)
    decreases |steps|, 0
  {
    steps != [] ==>
      var front := steps[..|steps| - 1];
      Admissible(kind, s, front) && Enabled(kind, Run(kind, s, front), Last(steps))
  }

  ghost function Run(kind: Paid, s: Sys, steps: seq<Step>): Sys
    requires Admissible(kind, s, steps)
    decreases |steps|, 1
  {
    if steps == [] then s else Apply(kind, Run(kind, s, steps[..|steps| - 1]), Last(steps))
  }

  // ----- the invariant -----

  ghost predicate Refused(r: Request) {
    r.reply == Some(Unauthorized) || r.reply == Some(Insufficient)
  }

  ghost predicate Unsent(s: Sys, k: IdemKey, upTo: nat)
    requires upTo <= |s.wire|
  {
    forall i :: 0 <= i < upTo ==> s.wire[i].key != k
  }

  ghost predicate OnlyRefused(s: Sys, k: IdemKey) {
    forall i :: 0 <= i < |s.wire| && s.wire[i].key == k ==> Refused(s.wire[i])
  }

  ghost predicate Current(s: Sys, k: IdemKey) {
    s.rec.Some? && s.rec.value.idemKey == k
  }

  ghost predicate KeysKnown(s: Sys) {
    && (s.rec.Some? ==> s.rec.value.idemKey < s.minted)
    && (forall i :: 0 <= i < |s.wire| ==> s.wire[i].key < s.minted)
    && (forall k :: k in s.plat.open || k in s.plat.charged || k in s.completions ==> k < s.minted)
  }

  /**
   Only the current key can still be charged, and the durable record says so: it is marked started,
   or it is a pass that was found unlocked while the key was still open.
   */
  ghost predicate OpenIsCurrent(kind: Paid, s: Sys) {
    forall k :: k in s.plat.open ==>
      Current(s, k) && (s.rec.value.started || (kind.Unlock? && s.rec.value.status.ActionCompleted?))
  }

  /** Everything sent under another key is settled: proven, or refused every time. */
  ghost predicate OthersResolved(s: Sys) {
    forall i :: 0 <= i < |s.wire| && !Current(s, s.wire[i].key) ==>
      s.wire[i].key in s.completions || Refused(s.wire[i])
  }

  ghost predicate RecordShape(kind: Paid, s: Sys) {
    s.rec.Some? ==>
      var a := s.rec.value;
      && (a.status.ActionUnknown? ==> a.started)
      && (a.status.ActionCompleted? ==> !a.started)
      && (!a.started && !a.status.ActionCompleted? ==>
            OnlyRefused(s, a.idemKey) && a.idemKey !in s.plat.charged && a.idemKey !in s.completions)
      && (!a.started && a.status.ActionPending? ==> Unsent(s, a.idemKey, |s.wire|))
      && (a.started ==> a.idemKey !in s.completions)
      && (kind.Purchase? && a.status.ActionCompleted? ==> a.idemKey in s.completions)
      && (kind.Unlock? && a.status.ActionCompleted? ==> s.plat.unlocked)
      && (kind.Unlock? && a.status.ActionCompleted? ==> a.idemKey in s.completions || OnlyRefused(s, a.idemKey))
  }

  ghost predicate PhaseShape(kind: Paid, s: Sys) {
    var n := |s.wire|;
    match s.phase
    case Idle => true
    case Entered => true
    case Fresh => Untouched(s)
    case Looked(d) => Untouched(s) && NotAbove(s.plat, Some(d.today), d.remaining) && (d.unlocked ==> s.plat.unlocked)
    case Prepared(d) => Untouched(s) && (d.unlocked ==> s.plat.unlocked)
    case Armed =>
      && InCall(s) && Unsent(s, s.rec.value.idemKey, n)
      && s.rec.value.idemKey !in s.plat.charged && s.rec.value.idemKey !in s.plat.open
    case Waiting(retry) =>
      && InCall(s) && Newest(s, 1)
      && (retry ==> Newest(s, 2) && s.wire[n - 2].reply == Some(Unauthorized))
      && Unsent(s, s.rec.value.idemKey, if retry then n - 2 else n - 1)
    case Rejected =>
      && InCall(s) && Newest(s, 1) && s.wire[n - 1].reply == Some(Unauthorized)
      && Unsent(s, s.rec.value.idemKey, n - 1)
      && s.rec.value.idemKey !in s.plat.charged && s.rec.value.idemKey !in s.plat.open
    case Refusing =>
      && InCall(s) && OnlyRefused(s, s.rec.value.idemKey)
      && s.rec.value.idemKey !in s.plat.charged && s.rec.value.idemKey !in s.plat.open
    case Settling(f) => InCall(s) && (f.ActionPending? || f.ActionUnknown?)
    case Reconciling => InCall(s)
    case Checked(d, f) => InCall(s) && (f.ActionPending? || f.ActionUnknown?)
                          && (Proves(kind, s.rec.value, d) ==> Earned(kind, s))
  }

  ghost predicate Untouched(s: Sys) {
    s.rec.Some? && s.rec.value.status.ActionPending? && !s.rec.value.started
  }

  ghost predicate InCall(s: Sys) {
    s.rec.Some? && s.rec.value.started
  }

  /** The d-th newest request was sent by this call under the current key. */
  ghost predicate Newest(s: Sys, d: nat)
    requires InCall(s)
  {
    && d <= |s.wire| && d > 0
    && s.wire[|s.wire| - d].key == s.rec.value.idemKey && s.wire[|s.wire| - d].call == s.call
  }

  ghost predicate NotAbove(p: Platform, today: Option<int>, remaining: Option<int>) {
    && (today.Some? ==> p.today <= today.value)
    && (remaining.Some? ==> p.remaining <= remaining.value)
  }

  ghost predicate Earned(kind: Paid, s: Sys)
    requires s.rec.Some?
  {
    match kind
    case Purchase => s.rec.value.idemKey in s.plat.charged
    case Unlock => s.plat.unlocked
  }

  /** As long as the current key is unpaid, the counters have not passed the recorded evidence. */
  ghost predicate EvidenceSound(kind: Paid, s: Sys) {
    kind.Purchase? && s.rec.Some? && s.rec.value.idemKey !in s.plat.charged ==>
      NotAbove(s.plat, s.rec.value.purchaseBeforeToday, s.rec.value.purchaseBeforeRemaining)
  }

  ghost predicate Distinct(ks: seq<IdemKey>) {
    forall i, j :: 0 <= i < j < |ks| ==> ks[i] != ks[j]
  }

  ghost predicate ChargesAccounted(kind: Paid, s: Sys) {
    && Distinct(s.completions)
    && (forall k :: k in s.plat.charged ==> k !in s.plat.open)
    && (kind.Purchase? ==> forall k :: k in s.completions ==> k in s.plat.charged)
    && (kind.Purchase? ==>
          forall k :: k in s.plat.charged ==> k in s.completions || (Current(s, k) && s.rec.value.started))
    && (kind.Unlock? ==>
          forall k :: k in s.plat.charged ==>
            Current(s, k) && (s.rec.value.started || s.rec.value.status.ActionCompleted?))
    && (kind.Unlock? ==> forall k :: k in s.completions ==> Current(s, k) && s.rec.value.status.ActionCompleted?)
  }

  /**
   Every POST followed a durable started record; a key is repeated only at once, by the same call, after
   a 401/403.
   */
  ghost predicate WireDiscipline(s: Sys) {
    && (forall i :: 0 <= i < |s.wire| ==> s.wire[i].durable.started && s.wire[i].durable.idemKey == s.wire[i].key)
    && (forall i :: 0 <= i < |s.wire| ==> s.wire[i].call <= s.call)
    && (forall i, j :: 0 <= i < j < |s.wire| && s.wire[i].key == s.wire[j].key ==>
          j == i + 1 && s.wire[i].call == s.wire[j].call && s.wire[i].reply == Some(Unauthorized))
  }

  ghost predicate Inv(kind: Paid, s: Sys) {
    && KeysKnown(s)
    && OpenIsCurrent(kind, s)
    && OthersResolved(s)
    && RecordShape(kind, s)
    && PhaseShape(kind, s)
    && EvidenceSound(kind, s)
    && ChargesAccounted(kind, s)
    && WireDiscipline(s)
  }

  // ----- one step keeps each part -----

  lemma StepKeepsKeysKnown(kind: Paid, s: Sys, step: Step)
    requires Inv(kind, s) && Enabled(kind, s, step)
    ensures KeysKnown(Apply(kind, s, step))
  {}

  lemma StepKeepsOpenIsCurrent(kind: Paid, s: Sys, step: Step)
    requires Inv(kind, s) && Enabled(kind, s, step)
    ensures OpenIsCurrent(kind, Apply(kind, s, step)) && OthersResolved(Apply(kind, s, step))
  {}

  lemma WireKeepsRecordShape(kind: Paid, s: Sys, step: Step)
    requires Inv(kind, s) && Enabled(kind, s, step) && OfWire(step)
    ensures RecordShape(kind, Apply(kind, s, step))
  {}

  lemma StepKeepsRecordShape(kind: Paid, s: Sys, step: Step)
    requires Inv(kind, s) && Enabled(kind, s, step)
    ensures RecordShape(kind, Apply(kind, s, step))
  {
    if OfWire(step) {
      WireKeepsRecordShape(kind, s, step);
    }
  }

  predicate OfPlatform(step: Step) {
    step.Charge? || step.Spend? || step.UnlockElsewhere?
  }

  predicate OfWire(step: Step) {
    step.Send? || step.Answer? || step.RenewFail?
  }

  lemma ChargeKeepsPhaseShape(kind: Paid, s: Sys, step: Step)
    requires Inv(kind, s) && Enabled(kind, s, step) && step.Charge?
    ensures PhaseShape(kind, Apply(kind, s, step))
  {}

  lemma PlatformKeepsPhaseShape(kind: Paid, s: Sys, step: Step)
    requires Inv(kind, s) && Enabled(kind, s, step) && OfPlatform(step)
    ensures PhaseShape(kind, Apply(kind, s, step))
  {
    if step.Charge? {
      ChargeKeepsPhaseShape(kind, s, step);
    }
  }

  lemma WireKeepsPhaseShape(kind: Paid, s: Sys, step: Step)
    requires Inv(kind, s) && Enabled(kind, s, step) && OfWire(step)
    ensures PhaseShape(kind, Apply(kind, s, step))
  {}

  lemma CallKeepsPhaseShape(kind: Paid, s: Sys, step: Step)
    requires Inv(kind, s) && Enabled(kind, s, step) && !OfPlatform(step) && !OfWire(step)
    ensures PhaseShape(kind, Apply(kind, s, step))
  {}

  lemma StepKeepsPhaseShape(kind: Paid, s: Sys, step: Step)
    requires Inv(kind, s) && Enabled(kind, s, step)
    ensures PhaseShape(kind, Apply(kind, s, step))
  {
    if OfPlatform(step) {
      PlatformKeepsPhaseShape(kind, s, step);
    } else if OfWire(step) {
      WireKeepsPhaseShape(kind, s, step);
    } else {
      CallKeepsPhaseShape(kind, s, step);
    }
  }

  lemma StepKeepsEvidence(kind: Paid, s: Sys, step: Step)
    requires Inv(kind, s) && Enabled(kind, s, step)
    ensures EvidenceSound(kind, Apply(kind, s, step))
  {}

  lemma CompletionKeepsAccounts(kind: Paid, s: Sys)
    requires Inv(kind, s) && Enabled(kind, s, Complete)
    ensures ChargesAccounted(kind, Apply(kind, s, Complete))
  {}

  lemma StepKeepsAccounts(kind: Paid, s: Sys, step: Step)
    requires Inv(kind, s) && Enabled(kind, s, step)
    ensures ChargesAccounted(kind, Apply(kind, s, step))
  {
    if step.Complete? {
      CompletionKeepsAccounts(kind, s);
    }
  }

  lemma SendKeepsWireDiscipline(kind: Paid, s: Sys)
    requires Inv(kind, s) && Enabled(kind, s, Send)
    ensures WireDiscipline(Apply(kind, s, Send))
  {}

  lemma StepKeepsWireDiscipline(kind: Paid, s: Sys, step: Step)
    requires Inv(kind, s) && Enabled(kind, s, step)
    ensures WireDiscipline(Apply(kind, s, step))
  {
    if step.Send? {
      SendKeepsWireDiscipline(kind, s);
    }
  }

  lemma StepKeepsInv(kind: Paid, s: Sys, step: Step)
    requires Inv(kind, s) && Enabled(kind, s, step)
    ensures Inv(kind, Apply(kind, s, step))
  {
    StepKeepsKeysKnown(kind, s, step);
    StepKeepsOpenIsCurrent(kind, s, step);
    StepKeepsRecordShape(kind, s, step);
    StepKeepsPhaseShape(kind, s, step);
    StepKeepsEvidence(kind, s, step);
    StepKeepsAccounts(kind, s, step);
    StepKeepsWireDiscipline(kind, s, step);
  }

  // ----- whole days -----

  lemma {:induction false} RunKeepsInv(kind: Paid, s: Sys, steps: seq<Step>)
    requires Inv(kind, s) && Admissible(kind, s, steps)
    ensures Inv(kind, Run(kind, s, steps))
  {
    if steps != [] {
      var front := steps[..|steps| - 1];
      RunKeepsInv(kind, s, front);
      StepKeepsInv(kind, Run(kind, s, front), Last(steps));
    }
  }

  /**
   Whatever calls, crashes, failed writes and lost replies a day holds, a purchase key the platform may
   still charge is the record's current key and is durably marked started, and so is every current key
   sent without having been refused or proven; every other key ever sent is proven by the dashboard or
   was refused each time it was sent. PaidRecovery.EveryKeyIsResolved says how.
   */
  lemma NoKeyIsLeftOpen(dawn: Sys, steps: seq<Step>)
    requires Dawn(dawn) && Admissible(Purchase, dawn, steps)
    ensures var s := Run(Purchase, dawn, steps);
            && (forall k :: k in s.plat.open ==> s.rec.Some? && s.rec.value.idemKey == k && s.rec.value.started)
            && (forall i :: 0 <= i < |s.wire| && s.rec != None && s.wire[i].key != s.rec.value.idemKey ==>
                  s.wire[i].key !in s.plat.open && (s.wire[i].key in s.completions || Refused(s.wire[i])))
            && (forall i :: 0 <= i < |s.wire| && s.rec != None && s.wire[i].key == s.rec.value.idemKey ==>
                  s.wire[i].key in s.completions || Refused(s.wire[i]) || s.rec.value.started)
  {
    RunKeepsInv(Purchase, dawn, steps);
  }

  ghost function ToSet(ks: seq<IdemKey>): set<IdemKey> {
    set k | k in ks
  }

  lemma {:induction false} DistinctSize(ks: seq<IdemKey>)
    requires Distinct(ks)
    ensures |ToSet(ks)| == |ks|
  {
    if ks != [] {
      var front := ks[..|ks| - 1];
      DistinctSize(front);
      assert ToSet(ks) == ToSet(front) + {Last(ks)};
    }
  }

  /** The charged key whose completion the record does not show yet, if there is one. */
  ghost function Unrecorded(s: Sys): set<IdemKey> {
    if s.rec.Some? && s.rec.value.idemKey in s.plat.charged && s.rec.value.started then {s.rec.value.idemKey} else {}
  }

  /**
   Conservation for draw purchases: the charges of the day are exactly the recorded completions plus at
   most the one key the record still holds open, and a record completes only if its key was charged.
   */
  lemma ChargesAreCompletions(dawn: Sys, steps: seq<Step>)
    requires Dawn(dawn) && Admissible(Purchase, dawn, steps)
    ensures var s := Run(Purchase, dawn, steps);
            && s.plat.charged == ToSet(s.completions) + Unrecorded(s)
            && |s.plat.charged| == |s.completions| + |Unrecorded(s)|
            && (s.rec.Some? && s.rec.value.status.ActionCompleted? ==> s.rec.value.idemKey in s.plat.charged)
  {
    RunKeepsInv(Purchase, dawn, steps);
    var s := Run(Purchase, dawn, steps);
    DistinctSize(s.completions);
    assert s.plat.charged == ToSet(s.completions) + Unrecorded(s);
    assert ToSet(s.completions) !! Unrecorded(s);
  }

  /** The daily pass is paid for at most once, even if it is also unlocked elsewhere. */
  lemma PassIsPaidAtMostOnce(dawn: Sys, steps: seq<Step>)
    requires Dawn(dawn) && Admissible(Unlock, dawn, steps)
    ensures var s := Run(Unlock, dawn, steps);
            && |s.plat.charged| <= 1
            && (s.rec.Some? && s.rec.value.status.ActionCompleted? ==> s.plat.unlocked)
            && (s.plat.charged != {} ==> s.rec.Some? && s.plat.charged == {s.rec.value.idemKey})
  {
    RunKeepsInv(Unlock, dawn, steps);
    var s := Run(Unlock, dawn, steps);
    if k :| k in s.plat.charged {
      assert s.plat.charged == {s.rec.value.idemKey};
    }
  }

  /**
   Each key is sent by one call only, at most twice, the second time only right after a 401/403 to the
   first, and always after the key was durably recorded with the started mark.
   */
  lemma EachKeyIsSentByOneCall(kind: Paid, dawn: Sys, steps: seq<Step>)
    requires Dawn(dawn) && Admissible(kind, dawn, steps)
    ensures var w := Run(kind, dawn, steps).wire;
            && (forall i :: 0 <= i < |w| ==> w[i].durable.started && w[i].durable.idemKey == w[i].key)
            && (forall i, j :: 0 <= i < j < |w| && w[i].key == w[j].key ==>
                  w[i].call == w[j].call && w[i].reply == Some(Unauthorized))
            && (forall i, j, l :: 0 <= i < j < l < |w| ==> !(w[i].key == w[j].key == w[l].key))
  {
    RunKeepsInv(kind, dawn, steps);
  }

  /** Between calls, a started record holds back every later POST until its own success is recorded. */
  ghost predicate HeldBack(t: Sys, u: Sys) {
    || |u.completions| > |t.completions|
    || (&& u.wire == t.wire && u.completions == t.completions
        && t.rec.Some? && u.rec.Some? && u.rec.value.idemKey == t.rec.value.idemKey && u.rec.value.started
        && (u.phase.Idle? || u.phase.Entered? || u.phase.Reconciling? || u.phase.Checked?))
  }

  lemma {:induction false} StartedHoldsBack(kind: Paid, t: Sys, more: seq<Step>)
    requires Inv(kind, t) && t.phase.Idle? && t.rec.Some? && t.rec.value.started && Admissible(kind, t, more)
    ensures HeldBack(t, Run(kind, t, more))
  {
    if more != [] {
      var front := more[..|more| - 1];
      StartedHoldsBack(kind, t, front);
      RunKeepsInv(kind, t, front);
      HeldBackStep(kind, t, Run(kind, t, front), Last(more));
    }
  }

  lemma HeldBackStep(kind: Paid, t: Sys, u: Sys, step: Step)
    requires HeldBack(t, u) && RecordShape(kind, u) && Enabled(kind, u, step)
    ensures HeldBack(t, Apply(kind, u, step))
  {}

  /**
   The price of that safety: a purchase record left started with a key the platform will never charge
   (a crash after the started mark, before the POST arrived) stays started, and nothing is sent again that day.
   */
  lemma {:induction false} UnchargeableStaysStuck(t: Sys, more: seq<Step>)
    requires Inv(Purchase, t) && t.phase.Idle? && t.rec.Some? && t.rec.value.started && Admissible(Purchase, t, more)
    requires t.rec.value.idemKey !in t.plat.open && t.rec.value.idemKey !in t.plat.charged
    ensures StuckSince(t, Run(Purchase, t, more))
  {
    if more == [] {
      assert t.plat.open == {};
    } else {
      var front := more[..|more| - 1];
      UnchargeableStaysStuck(t, front);
      RunKeepsInv(Purchase, t, front);
      StuckStep(t, Run(Purchase, t, front), Last(more));
    }
  }

  ghost predicate StuckSince(t: Sys, u: Sys) {
    && u.wire == t.wire && u.completions == t.completions && u.plat.charged == t.plat.charged && u.plat.open == {}
    && t.rec.Some? && u.rec.Some? && u.rec.value.started && u.rec.value.idemKey == t.rec.value.idemKey
    && u.rec.value.idemKey !in u.plat.charged
    && (u.phase.Idle? || u.phase.Entered? || u.phase.Reconciling? || u.phase.Checked?)
  }

  lemma StuckStep(t: Sys, u: Sys, step: Step)
    requires StuckSince(t, u) && PhaseShape(Purchase, u) && Enabled(Purchase, u, step)
    ensures StuckSince(t, Apply(Purchase, u, step))
  {}

  /** A run of one more step. */
  lemma RunSnoc(kind: Paid, s: Sys, steps: seq<Step>, step: Step)
    requires Admissible(kind, s, steps) && Enabled(kind, Run(kind, s, steps), step)
    ensures Admissible(kind, s, steps + [step])
    ensures Run(kind, s, steps + [step]) == Apply(kind, Run(kind, s, steps), step)
  {
    assert (steps + [step])[..|steps + [step]| - 1] == steps;
  }
}
