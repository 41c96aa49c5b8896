/**
 The keyed lock of the store: one mutex per key, created on first use and deleted when its last user
 leaves. A ticket stands for one call of the lock function, from joining the entry to leaving it.
 */
module KeyedLock {
  import opened Prelude

  datatype Stage = Waiting | Holding | Releasing

  datatype Ticket<E> = Ticket(key: string, entry: E, stage: Stage)

  datatype Cell = Cell(refs: int, locked: bool)

  /** `cells` also keeps entries already deleted from the table: a thread may still point at them. */
  datatype Locks<E> = Locks(table: map<string, E>, cells: map<E, Cell>, tickets: map<nat, Ticket<E>>, next: nat)

  datatype Step<E> = Register(key: string, entry: E) | Acquire(t: nat) | Unlock(t: nat) | Leave(t: nat)

  ghost predicate Enabled<E>(s: Locks<E>, step: Step<E>) {
    match step
    case Register(key, e) => if key in s.table then e == s.table[key] && e in s.cells else e !in s.cells
    case Acquire(t) => t in s.tickets && s.tickets[t].stage.Waiting? && s.tickets[t].entry in s.cells
                       && !s.cells[s.tickets[t].entry].locked
    case Unlock(t) => t in s.tickets && s.tickets[t].stage.Holding? && s.tickets[t].entry in s.cells
    case Leave(t) => t in s.tickets && s.tickets[t].stage.Releasing? && s.tickets[t].entry in s.cells
  }

  ghost function Apply<E>(s: Locks<E>, step: Step<E>): Locks<E>
    requires Enabled(s, step)
  {
    match step
    case Register(key, e) =>
      var refs := if key in s.table then s.cells[e].refs else 0;
      var locked := key in s.table && s.cells[e].locked;
      Locks(s.table[key := e], s.cells[e := Cell(refs + 1, locked)], s.tickets[s.next := Ticket(key, e, Waiting)],
            s.next + 1)
    case Acquire(t) => Moved(s, t, Holding, true)
    case Unlock(t) => Moved(s, t, Releasing, false)
    case Leave(t) =>
      var Ticket(key, e, _) := s.tickets[t];
      var refs := s.cells[e].refs - 1;
      s.(table := if refs == 0 then s.table - {key} else s.table,
         cells := s.cells[e := s.cells[e].(refs := refs)],
         tickets := s.tickets - {t})
  }

  ghost function Moved<E>(s: Locks<E>, t: nat, stage: Stage, locked: bool): Locks<E>
    requires t in s.tickets && s.tickets[t].entry in s.cells
  {
    var e := s.tickets[t].entry;
    s.(cells := s.cells[e := s.cells[e].(locked := locked)], tickets := s.tickets[t := s.tickets[t].(stage := stage)])
  }

  ghost predicate Admissible<E>(steps: seq<Step<E>>)
    decreases |steps|, 0
  {
    steps != [] ==>
      var front := steps[..|steps| - 1];
      Admissible(front) && Enabled(Run(front), Last(steps))
  }

  ghost function Run<E>(steps: seq<Step<E>>): Locks<E>
    requires Admissible(steps)
    decreases |steps|, 1
  {
    if steps == [] then Locks(map[], map[], map[], 0) else Apply(Run(steps[..|steps| - 1]), Last(steps))
  }

  /** Waiters, holders and releasers of an entry. */
  ghost function Users<E>(s: Locks<E>, e: E): set<nat> {
    set t | t in s.tickets && s.tickets[t].entry == e
  }

  ghost predicate Pointing<E>(s: Locks<E>) {
    && (forall t :: t in s.tickets ==> t < s.next)
    && (forall t :: t in s.tickets ==> s.tickets[t].key in s.table && s.table[s.tickets[t].key] == s.tickets[t].entry)
    && (forall k :: k in s.table ==> s.table[k] in s.cells)
    && (forall j, k :: j in s.table && k in s.table && s.table[j] == s.table[k] ==> j == k)
  }

  ghost predicate Counted<E>(s: Locks<E>) {
    forall k :: k in s.table ==> s.table[k] in s.cells && s.cells[s.table[k]].refs == |Users(s, s.table[k])| > 0
  }

  ghost predicate OneHolder<E>(s: Locks<E>) {
    && (forall t, u :: t in s.tickets && u in s.tickets && s.tickets[t].stage.Holding?
                       && s.tickets[u].stage.Holding? ==>
          s.tickets[t].entry == s.tickets[u].entry ==> t == u)
    && (forall t :: t in s.tickets && s.tickets[t].stage.Holding? ==>
          s.tickets[t].entry in s.cells && s.cells[s.tickets[t].entry].locked)
  }

  ghost predicate LockedIsHeld<E>(s: Locks<E>) {
    forall k :: k in s.table && s.table[k] in s.cells && s.cells[s.table[k]].locked ==> exists t :: HoldsKey(s, t, k)
  }

  ghost predicate Exclusive<E>(s: Locks<E>) {
    OneHolder(s) && LockedIsHeld(s)
  }

  ghost predicate HoldsKey<E>(s: Locks<E>, t: nat, k: string) {
    t in s.tickets && s.tickets[t].stage.Holding? && s.tickets[t].key == k
  }

  ghost predicate Inv<E>(s: Locks<E>) {
    Pointing(s) && Counted(s) && Exclusive(s)
  }

  lemma SubsetIsSmaller(a: set<nat>, b: set<nat>)
    requires a <= b
    ensures |a| <= |b|
  {
    assert b == a + (b - a);
  }

  lemma LastUser<E>(s: Locks<E>, t: nat)
    requires Inv(s) && t in s.tickets && s.cells[s.tickets[t].entry].refs == 1
    ensures forall u :: u in s.tickets && s.tickets[u].key == s.tickets[t].key ==> u == t
  {
    var e := s.tickets[t].entry;
    forall u | u in s.tickets && s.tickets[u].key == s.tickets[t].key ensures u == t {
      SubsetIsSmaller({t, u}, Users(s, e));
    }
  }

  lemma LeaveKeepsPointing<E>(s: Locks<E>, t: nat)
    requires Inv(s) && Enabled(s, Step<E>.Leave(t))
    ensures Pointing(Apply(s, Step<E>.Leave(t)))
  {
    if s.cells[s.tickets[t].entry].refs == 1 {
      LastUser(s, t);
    }
  }

  lemma StepKeepsPointing<E>(s: Locks<E>, step: Step<E>)
    requires Inv(s) && Enabled(s, step)
    ensures Pointing(Apply(s, step))
  {
    if step.Leave? {
      LeaveKeepsPointing(s, step.t);
    }
  }

  lemma RegisterKeepsUsers<E>(s: Locks<E>, key: string, e: E)
    requires Inv(s) && Enabled(s, Register(key, e))
    ensures var s' := Apply(s, Register(key, e));
            && Users(s', e) == Users(s, e) + {s.next}
            && (key !in s.table ==> Users(s, e) == {})
            && (forall k :: k in s.table && k != key ==>
                  s.table[k] != e && Users(s', s.table[k]) == Users(s, s.table[k]))
  {
    var s' := Apply(s, Register(key, e));
    forall k | k in s.table && k != key ensures s.table[k] != e && Users(s', s.table[k]) == Users(s, s.table[k]) {}
  }

  lemma RegisterKeepsCounts<E>(s: Locks<E>, key: string, e: E)
    requires Inv(s) && Enabled(s, Register(key, e))
    ensures Counted(Apply(s, Register(key, e)))
  {
    RegisterKeepsUsers(s, key, e);
    assert s.next !in Users(s, e);
  }

  lemma LeaveKeepsUsers<E>(s: Locks<E>, t: nat, k: string)
    requires Inv(s) && Enabled(s, Step<E>.Leave(t)) && k in s.table
    ensures var users := Users(Apply(s, Step<E>.Leave(t)), s.table[k]);
            users == Users(s, s.table[k]) - (if k == s.tickets[t].key then {t} else {})
  {}

  lemma LeaveKeepsCounts<E>(s: Locks<E>, t: nat)
    requires Inv(s) && Enabled(s, Step<E>.Leave(t))
    ensures Counted(Apply(s, Step<E>.Leave(t)))
  {
    var s' := Apply(s, Step<E>.Leave(t));
    forall k | k in s'.table
      ensures s'.table[k] in s'.cells && s'.cells[s'.table[k]].refs == |Users(s', s'.table[k])| > 0
    {
      LeaveKeepsUsers(s, t, k);
    }
  }

  lemma MoveKeepsCounts<E>(s: Locks<E>, t: nat, stage: Stage, locked: bool)
    requires Inv(s) && t in s.tickets
    ensures Counted(Moved(s, t, stage, locked))
  {
    forall k | k in s.table ensures Users(Moved(s, t, stage, locked), s.table[k]) == Users(s, s.table[k]) {}
  }

  lemma StepKeepsOneHolder<E>(s: Locks<E>, step: Step<E>)
    requires Pointing(s) && OneHolder(s) && Enabled(s, step)
    ensures OneHolder(Apply(s, step))
  {}

  /** A step that frees no entry keeps the holders of locked ones. */
  lemma StepKeepsHeld<E>(s: Locks<E>, step: Step<E>, k: string)
    requires Pointing(s) && LockedIsHeld(s) && Enabled(s, step)
    requires var s' := Apply(s, step); k in s'.table && s'.table[k] in s'.cells && s'.cells[s'.table[k]].locked
    ensures exists t :: HoldsKey(Apply(s, step), t, k)
  {
    if step.Acquire? && s.tickets[step.t].key == k {
      assert HoldsKey(Apply(s, step), step.t, k);
    } else {
      assert k in s.table && s.cells[s.table[k]].locked;
      var t :| HoldsKey(s, t, k);
      assert HoldsKey(Apply(s, step), t, k);
    }
  }

  lemma StepKeepsExclusive<E>(s: Locks<E>, step: Step<E>)
    requires Inv(s) && Enabled(s, step)
    ensures Exclusive(Apply(s, step))
  {
    StepKeepsOneHolder(s, step);
    var s' := Apply(s, step);
    forall k | k in s'.table && s'.table[k] in s'.cells && s'.cells[s'.table[k]].locked
      ensures exists t :: HoldsKey(s', t, k)
    {
      StepKeepsHeld(s, step, k);
    }
  }

  lemma StepKeepsInv<E>(s: Locks<E>, step: Step<E>)
    requires Inv(s) && Enabled(s, step)
    ensures Inv(Apply(s, step))
  {
    StepKeepsPointing(s, step);
    StepKeepsExclusive(s, step);
    match step
    case Register(key, e) => RegisterKeepsCounts(s, key, e);
    case Leave(t) => LeaveKeepsCounts(s, t);
    case Acquire(t) => MoveKeepsCounts(s, t, Holding, true);
    case Unlock(t) => MoveKeepsCounts(s, t, Releasing, false);
  }

  lemma {:induction false} RunKeepsInv<E>(steps: seq<Step<E>>)
    requires Admissible(steps)
    ensures Inv(Run(steps))
  {
    if steps != [] {
      var front := steps[..|steps| - 1];
      RunKeepsInv(front);
      StepKeepsInv(Run(front), Last(steps));
    }
  }

  /** For any number of callers and keys, in any interleaving: one holder per key at a time. */
  lemma MutualExclusion<E>(steps: seq<Step<E>>, t: nat, u: nat)
    requires Admissible(steps)
    requires t in Run(steps).tickets && Run(steps).tickets[t].stage.Holding?
    requires u in Run(steps).tickets && Run(steps).tickets[u].stage.Holding?
    requires Run(steps).tickets[t].key == Run(steps).tickets[u].key
    ensures t == u
  {
    RunKeepsInv(steps);
  }

  /**
   The table holds exactly the keys in use, no ticket points at a deleted entry, and each reference
   count is the number of waiters, holders and releasers.
   */
  lemma TableIsExact<E>(steps: seq<Step<E>>)
    requires Admissible(steps)
    ensures var s := Run(steps);
            && s.table.Keys == (set t | t in s.tickets :: s.tickets[t].key)
            && (forall t :: t in s.tickets ==>
                  s.tickets[t].key in s.table && s.tickets[t].entry == s.table[s.tickets[t].key])
            && (forall k :: k in s.table ==>
                  s.table[k] in s.cells && s.cells[s.table[k]].refs == |Users(s, s.table[k])|)
  {
    RunKeepsInv(steps);
    var s := Run(steps);
    forall k | k in s.table ensures k in (set t | t in s.tickets :: s.tickets[t].key) {
      var t :| t in Users(s, s.table[k]);
    }
  }

  /** No lost wake-up: while anyone waits for a key, its holder can release it or a waiter can take it. */
  lemma WaitersCanProceed<E>(steps: seq<Step<E>>, t: nat)
    requires Admissible(steps) && t in Run(steps).tickets && Run(steps).tickets[t].stage.Waiting?
    ensures var s := Run(steps);
            || Enabled(s, Acquire(t))
            || exists u :: u in s.tickets && s.tickets[u].key == s.tickets[t].key && Enabled(s, Step<E>.Unlock(u))
  {
    RunKeepsInv(steps);
    var s := Run(steps);
    var e := s.tickets[t].entry;
    if s.cells[e].locked {
      var u :| HoldsKey(s, u, s.tickets[t].key);
      assert Enabled(s, Step<E>.Unlock(u));
    }
  }

  lemma RunSnoc<E>(steps: seq<Step<E>>, step: Step<E>)
    requires Admissible(steps) && Enabled(Run(steps), step)
    ensures Admissible(steps + [step]) && Run(steps + [step]) == Apply(Run(steps), step)
  {
    assert (steps + [step])[..|steps + [step]| - 1] == steps;
  }
}
