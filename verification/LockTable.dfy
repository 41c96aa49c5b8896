/**
 The atomic sections of the store's lock functions over real entries: joining and leaving run under
 the table mutex, taking and freeing are the entry's own mutex. Between any two of them other threads
 may run any others, so each is proved against one step of KeyedLock.
 */
module LockTable {
  import opened KeyedLock

  class LockEntry {
    var refs: int
    var locked: bool

    constructor ()
      ensures refs == 0 && !locked
    {
      refs, locked := 0, false;
    }
  }

  class LockTable {
    var table: map<string, LockEntry>
    ghost var steps: seq<Step<LockEntry>>
    ghost var spec: Locks<LockEntry>

    ghost predicate Valid()
      reads this, spec.cells.Keys
    {
      && Admissible(steps) && spec == Run(steps)
      && table == spec.table
      && forall e :: e in spec.cells ==> e.refs == spec.cells[e].refs && e.locked == spec.cells[e].locked
    }

    constructor ()
      ensures Valid() && spec == Run([])
    {
      table, steps := map[], [];
      spec := Run([]);
    }

    ghost method Follow(step: Step<LockEntry>)
      requires Admissible(steps) && spec == Run(steps) && Enabled(spec, step)
      modifies this`steps, this`spec
      ensures Admissible(steps) && spec == Run(steps) && spec == Apply(old(spec), step)
    {
      RunSnoc(steps, step);
      steps := steps + [step];
      spec := Apply(spec, step);
    }

    /** Entries in use are entries the protocol knows. */
    lemma Known()
      requires Valid()
      ensures forall k :: k in table ==> table[k] in spec.cells
      ensures forall t :: t in spec.tickets ==> spec.tickets[t].entry in spec.cells
      ensures forall t :: t in spec.tickets ==>
                spec.tickets[t].key in table && table[spec.tickets[t].key] == spec.tickets[t].entry
    {
      RunKeepsInv(steps);
    }

    /** Finds or creates the key's entry and counts this caller in. */
    method Register(key: string) returns (entry: LockEntry, ghost t: nat)
      requires Valid()
      modifies this, spec.cells.Keys
      ensures Valid() && t == old(spec.next)
      ensures Enabled(old(spec), Step.Register(key, entry)) && spec == Apply(old(spec), Step.Register(key, entry))
      ensures entry in old(spec.cells) || fresh(entry)
    {
      Known();
      if key in table {
        entry := table[key];
      } else {
        entry := new LockEntry();
        table := table[key := entry];
      }
      entry.refs := entry.refs + 1;
      t := spec.next;
      Follow(Step.Register(key, entry));
    }

    /** The entry's mutex: taken if free, otherwise the caller goes on waiting. */
    method TryAcquire(entry: LockEntry, ghost t: nat) returns (taken: bool)
      requires Valid() && t in spec.tickets && spec.tickets[t].stage.Waiting? && spec.tickets[t].entry == entry
      modifies this`steps, this`spec, spec.cells.Keys
      ensures Valid() && taken == !old(entry.locked)
      ensures taken ==> Enabled(old(spec), Step<LockEntry>.Acquire(t)) && spec == Apply(old(spec), Step.Acquire(t))
      ensures !taken ==> spec == old(spec)
    {
      Known();
      taken := !entry.locked;
      if taken {
        entry.locked := true;
        Follow(Step.Acquire(t));
      }
    }

    /** First half of the release function. */
    method Free(entry: LockEntry, ghost t: nat)
      requires Valid() && t in spec.tickets && spec.tickets[t].stage.Holding? && spec.tickets[t].entry == entry
      modifies this`steps, this`spec, spec.cells.Keys
      ensures Valid() && Enabled(old(spec), Step<LockEntry>.Unlock(t)) && spec == Apply(old(spec), Step.Unlock(t))
    {
      Known();
      entry.locked := false;
      Follow(Step.Unlock(t));
    }

    /** Second half: count this caller out, and delete the key after its last user. */
    method Leave(key: string, entry: LockEntry, ghost t: nat)
      requires Valid() && t in spec.tickets && spec.tickets[t] == Ticket(key, entry, Releasing)
      modifies this, spec.cells.Keys
      ensures Valid() && Enabled(old(spec), Step<LockEntry>.Leave(t)) && spec == Apply(old(spec), Step.Leave(t))
    {
      Known();
      entry.refs := entry.refs - 1;
      if entry.refs == 0 {
        table := table - {key};
      }
      Follow(Step.Leave(t));
    }
  }
}
