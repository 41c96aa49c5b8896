/**
 Any number of background callers asking one account for sessions at the same time, in any interleaving.
 The situation: the stored parent token is not usable and the platform rejects it, a refreshed token stays
 usable for the whole run, the bridge accepts, and saving succeeds.
 */
module BrokerRace {
  import opened Prelude

  type Caller = nat

  datatype Kind = Parent | Lottery

  /**
   The stored tokens: a stale one, the one of the n-th refresh; a lottery token left from before, or
   bridged from a refresh.
   */
  datatype ParentToken = Stale(blank: bool) | Refreshed(n: nat)

  datatype LotteryToken = Unusable | LeftOver | Bridged(from: nat)

  datatype Place =
    | Looking               // before the first, lock-free look into the vault
    | Waiting               // for the auth lock
    | LookingAgain          // holding the lock
    | Validating
    | Refreshing
    | Bridging(parent: ParentToken)
    | GotParent(token: ParentToken)
    | GotLottery(session: LotteryToken)

  datatype Race = Race(
    asked: map<Caller, Kind>,
    at: map<Caller, Place>,
    holder: Option<Caller>,
    parent: ParentToken,
    lottery: LotteryToken,
    validations: nat,
    refreshes: nat,
    bridges: nat)

  datatype Step =
    | Arrive(c: Caller, kind: Kind)
    | Look(c: Caller)
    | Lock(c: Caller)
    | LookAgain(c: Caller)
    | Validate(c: Caller)
    | DoRefresh(c: Caller)
    | DoBridge(c: Caller)

  predicate Locked(p: Place) {
    p.LookingAgain? || p.Validating? || p.Refreshing? || p.Bridging?
  }

  predicate Finished(p: Place) {
    p.GotParent? || p.GotLottery?
  }

  /** What a look into the vault returns at once, if anything. */
  function Found(s: Race, kind: Kind): Option<Place> {
    match kind
    case Parent => if s.parent.Refreshed? then Some(GotParent(s.parent)) else None
    case Lottery => if s.lottery.Unusable? then None else Some(GotLottery(s.lottery))
  }

  predicate Enabled(s: Race, step: Step) {
    match step
    case Arrive(c, _) => c !in s.at
    case Look(c) => c in s.at && c in s.asked && s.at[c].Looking?
    case Lock(c) => c in s.at && s.at[c].Waiting? && s.holder.None?
    case LookAgain(c) => c in s.at && c in s.asked && s.at[c].LookingAgain?
    case Validate(c) => c in s.at && s.at[c].Validating?
    case DoRefresh(c) => c in s.at && c in s.asked && s.at[c].Refreshing?
    case DoBridge(c) => c in s.at && s.at[c].Bridging?
  }

  /** Leaving the lock with a result. */
  function Finish(s: Race, c: Caller, p: Place): Race {
    s.(at := s.at[c := p], holder := None)
  }

  function Apply(s: Race, step: Step): Race
    requires Enabled(s, step)
  {
    match step
    case Arrive(c, kind) => s.(at := s.at[c := Looking], asked := s.asked[c := kind])
    case Look(c) =>
      var found := Found(s, s.asked[c]);
      s.(at := s.at[c := if found.Some? then found.value else Waiting])
    case Lock(c) => s.(at := s.at[c := LookingAgain], holder := Some(c))
    case LookAgain(c) =>
      var found := Found(s, s.asked[c]);
      if found.Some? then Finish(s, c, found.value)
      else
        s.(at := s.at[c := match s.parent
                           case Refreshed(_) => Bridging(s.parent)
                           case Stale(blank) => if blank then Refreshing else Validating])
    case Validate(c) => s.(at := s.at[c := Refreshing], validations := s.validations + 1)
    case DoRefresh(c) =>
      var token := Refreshed(s.refreshes + 1);
      var t := s.(parent := token, lottery := Unusable, refreshes := s.refreshes + 1);
      if s.asked[c].Parent? then Finish(t, c, GotParent(token)) else t.(at := t.at[c := Bridging(token)])
    case DoBridge(c) =>
      var session := Bridged(if s.at[c].parent.Refreshed? then s.at[c].parent.n else 0);
      Finish(s.(lottery := session, bridges := s.bridges + 1), c, GotLottery(session))
  }

  predicate Admissible(s: Race, steps: seq<Step>)
    decreases |steps|, 0
  {
    steps != [] ==>
      var front := steps[..|steps| - 1];
      Admissible(s, front) && Enabled(Run(s, front), Last(steps))
  }

  function Run(s: Race, steps: seq<Step>): Race
    requires Admissible(s, steps)
    decreases |steps|, 1
  {
    if steps == [] then s else Apply(Run(s, steps[..|steps| - 1]), Last(steps))
  }

  /** Nobody asks yet; a lottery token from before may still be usable. */
  predicate Start(s: Race) {
    s == Race(map[], map[], None, s.parent, s.lottery, 0, 0, 0) && s.parent.Stale? && !s.lottery.Bridged?
  }

  /** What holds of one caller. */
  predicate CallerOk(s: Race, c: Caller) {
    && (c in s.at <==> c in s.asked)
    && (c in s.at ==>
          && (s.holder == Some(c) <==> Locked(s.at[c]))
          && match s.at[c]
             case Validating => s.parent.Stale?
             case Refreshing => s.parent.Stale?
             case Bridging(p) => p == s.parent && p.Refreshed? && s.lottery.Unusable? && s.asked[c].Lottery?
             case GotParent(t) => t == Refreshed(1) && s.refreshes == 1
             case GotLottery(l) => l == LeftOver || (l == Bridged(1) && s.bridges == 1)
             case _ => true)
  }

  predicate VaultOk(s: Race) {
    && (if s.refreshes == 0 then s.parent.Stale? && s.bridges == 0 && !s.lottery.Bridged?
        else s.refreshes == 1 && s.parent == Refreshed(1) && !s.lottery.LeftOver?)
    && s.bridges <= 1 && (s.bridges == 1 <==> s.lottery == Bridged(1)) && (s.lottery.Bridged? ==> s.bridges == 1)
    && s.validations <= 1
    && (s.validations == 1 ==>
          s.refreshes == 1 || (s.holder.Some? && s.holder.value in s.at && s.at[s.holder.value].Refreshing?))
    && (s.holder.Some? ==> s.holder.value in s.at)
  }

  ghost predicate Inv(s: Race) {
    VaultOk(s) && forall c :: CallerOk(s, c)
  }

  lemma StepKeepsCaller(s: Race, step: Step, c: Caller)
    requires VaultOk(s) && CallerOk(s, c) && CallerOk(s, step.c) && Enabled(s, step)
    requires s.holder.Some? ==> CallerOk(s, s.holder.value)
    ensures CallerOk(Apply(s, step), c)
  {}

  lemma StepKeepsVault(s: Race, step: Step)
    requires VaultOk(s) && CallerOk(s, step.c) && Enabled(s, step)
    ensures VaultOk(Apply(s, step))
  {}

  lemma {:induction false} RunKeepsInv(s: Race, steps: seq<Step>)
    requires Inv(s) && Admissible(s, steps)
    ensures Inv(Run(s, steps))
  {
    if steps != [] {
      var front := steps[..|steps| - 1];
      RunKeepsInv(s, front);
      var t := Run(s, front);
      StepKeepsVault(t, Last(steps));
      forall c ensures CallerOk(Apply(t, Last(steps)), c) {
        StepKeepsCaller(t, Last(steps), c);
      }
    }
  }

  // ----- over every interleaving -----

  /** One validation, one refresh and one bridge at the most, however many callers there are. */
  lemma RecoveredOnce(s: Race, steps: seq<Step>)
    requires Start(s) && Admissible(s, steps)
    ensures var t := Run(s, steps); t.validations <= 1 && t.refreshes <= 1 && t.bridges <= 1
  {
    RunKeepsInv(s, steps);
  }

  /** Every caller that got a parent session got the token of that one refresh, which is what the vault holds. */
  lemma SameTokenForAll(s: Race, steps: seq<Step>, c: Caller)
    requires Start(s) && Admissible(s, steps)
    requires c in Run(s, steps).at && Run(s, steps).at[c].GotParent?
    ensures var t := Run(s, steps); t.refreshes == 1 && t.at[c].token == t.parent == Refreshed(1)
  {
    RunKeepsInv(s, steps);
    assert CallerOk(Run(s, steps), c);
  }

  /** A lottery session is a left-over one or the one bridged from the refreshed parent. */
  lemma LotteryFromTheRefresh(s: Race, steps: seq<Step>, c: Caller)
    requires Start(s) && Admissible(s, steps)
    requires c in Run(s, steps).at && Run(s, steps).at[c].GotLottery?
    ensures var t := Run(s, steps);
            t.at[c].session == LeftOver || (t.at[c].session == Bridged(1) && t.refreshes == t.bridges == 1)
  {
    RunKeepsInv(s, steps);
    assert CallerOk(Run(s, steps), c);
  }

  ghost predicate Began(s: Race, steps: seq<Step>)
    requires Admissible(s, steps)
  {
    exists i :: 0 <= i <= |steps| && Admissible(s, steps[..i]) && Recovering(Run(s, steps[..i]))
  }

  predicate Recovering(s: Race) {
    exists c :: c in s.at && (s.at[c].Validating? || s.at[c].Refreshing?)
  }

  /** Once begun, a recovery is under way until the refresh is done. */
  lemma {:induction false} BegunGoesOn(s: Race, steps: seq<Step>)
    requires Start(s) && Admissible(s, steps) && Began(s, steps)
    ensures Recovering(Run(s, steps)) || Run(s, steps).refreshes == 1
  {
    var i :| 0 <= i <= |steps| && Admissible(s, steps[..i]) && Recovering(Run(s, steps[..i]));
    if i == |steps| {
      assert steps[..i] == steps;
    } else {
      var front := steps[..|steps| - 1];
      assert front[..i] == steps[..i];
      BegunGoesOn(s, front);
      RunKeepsInv(s, front);
      RunKeepsInv(s, steps);
      StaysRecovering(Run(s, front), Last(steps));
    }
  }

  lemma StaysRecovering(s: Race, step: Step)
    requires Inv(s) && Enabled(s, step) && (Recovering(s) || s.refreshes == 1)
    ensures Recovering(Apply(s, step)) || Apply(s, step).refreshes >= 1
  {
    if s.refreshes != 1 {
      var c :| c in s.at && (s.at[c].Validating? || s.at[c].Refreshing?);
      assert CallerOk(s, c) && CallerOk(s, step.c);
      if !step.DoRefresh? {
        assert c in Apply(s, step).at && (Apply(s, step).at[c].Validating? || Apply(s, step).at[c].Refreshing?);
      }
    }
  }

  /** When a recovery began and everybody is served, the refresh happened exactly once. */
  lemma RefreshedExactlyOnce(s: Race, steps: seq<Step>)
    requires Start(s) && Admissible(s, steps) && Began(s, steps)
    requires forall c :: c in Run(s, steps).at ==> Finished(Run(s, steps).at[c])
    ensures Run(s, steps).refreshes == 1
  {
    BegunGoesOn(s, steps);
  }

  /** The step a caller takes from where it is. */
  function NextOf(p: Place, c: Caller): Step {
    match p
    case Looking => Look(c)
    case Waiting => Lock(c)
    case LookingAgain => LookAgain(c)
    case Validating => Validate(c)
    case Refreshing => DoRefresh(c)
    case _ => DoBridge(c)
  }

  /** As long as someone is not served, someone can go on. */
  lemma SomeoneCanGoOn(s: Race, steps: seq<Step>, c: Caller)
    requires Start(s) && Admissible(s, steps)
    requires c in Run(s, steps).at && !Finished(Run(s, steps).at[c])
    ensures exists step: Step :: !step.Arrive? && Enabled(Run(s, steps), step)
  {
    RunKeepsInv(s, steps);
    var t := Run(s, steps);
    var next := if t.at[c].Waiting? && t.holder.Some? then t.holder.value else c;
    assert CallerOk(t, c) && CallerOk(t, next);
    var step := NextOf(t.at[next], next);
    assert Enabled(t, step);
  }
}
