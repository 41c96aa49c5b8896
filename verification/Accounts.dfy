/** Sequential account codes: a watermark in the state file, not the set of live accounts, decides the next one. */
module Accounts {
  import opened Prelude
  import Keys

  const PREFIX := "account-"

  /** Letters a to z, digits 1 to 9. */
  const LAST_PLACE: nat := 234

  /** strings.TrimPrefix */
  function Suffix(id: string): string {
    if PREFIX <= id then id[|PREFIX|..] else id
  }

  predicate IsCode(s: string) {
    |s| == 2 && 'a' <= s[0] <= 'z' && '1' <= s[1] <= '9'
  }

  function Letter(s: string): nat
    requires IsCode(s)
  {
    s[0] as int - 'a' as int
  }

  function DigitOf(s: string): nat
    requires IsCode(s)
  {
    s[1] as int - '0' as int
  }

  /** Where a code stands in the order a1, a2, ..., z9; anything else stands before all of them. */
  function PlaceOf(id: string): (n: nat)
    ensures n <= LAST_PLACE
  {
    if IsCode(Suffix(id)) then 9 * Letter(Suffix(id)) + DigitOf(Suffix(id)) else 0
  }

  function CodeText(letter: nat, digit: nat): string
    requires letter < 26 && 1 <= digit <= 9
  {
    PREFIX + [('a' as int + letter) as char, ('0' as int + digit) as char]
  }

  /** The code after the watermark; None when z9 has been given out. */
  function NewAccountID(watermark: string): Option<string> {
    var s := Suffix(watermark);
    var letter, digit := if IsCode(s) then Letter(s) else 0, (if IsCode(s) then DigitOf(s) else 0) + 1;
    if digit > 9 then (if letter + 1 > 25 then None else Some(CodeText(letter + 1, 1)))
    else Some(CodeText(letter, digit))
  }

  lemma CodeReadsBack(letter: nat, digit: nat)
    requires letter < 26 && 1 <= digit <= 9
    ensures PlaceOf(CodeText(letter, digit)) == 9 * letter + digit
  {
    var id := CodeText(letter, digit);
    assert id[|PREFIX|..] == [('a' as int + letter) as char, ('0' as int + digit) as char];
    assert id[..|PREFIX|] == PREFIX;
  }

  /** Every place has its code, one step after the previous one, and only the last place has no successor. */
  lemma NextPlace(watermark: string)
    ensures NewAccountID(watermark).None? <==> PlaceOf(watermark) == LAST_PLACE
    ensures NewAccountID(watermark).Some? ==> PlaceOf(NewAccountID(watermark).value) == PlaceOf(watermark) + 1
  {
    var s := Suffix(watermark);
    var letter, digit := if IsCode(s) then Letter(s) else 0, (if IsCode(s) then DigitOf(s) else 0) + 1;
    if digit <= 9 {
      CodeReadsBack(letter, digit);
    } else if letter + 1 <= 25 {
      CodeReadsBack(letter + 1, 1);
    }
  }

  /** No two codes share a place. */
  lemma SamePlaceSameCode(x: string, y: string)
    requires "account-" <= x && "account-" <= y && PlaceOf(x) == PlaceOf(y) > 0
    ensures x == y
  {
    var s, t := Suffix(x), Suffix(y);
    assert x == PREFIX + s && y == PREFIX + t;
    assert Letter(s) == Letter(t) && DigitOf(s) == DigitOf(t);
    assert s == [s[0], s[1]] && t == [t[0], t[1]];
  }

  /** Generated codes are fit to be the last part of a plan key. */
  lemma CodesHaveNoColon(watermark: string)
    ensures NewAccountID(watermark).Some? ==> Keys.NoColon(NewAccountID(watermark).value)
  {
    var id := NewAccountID(watermark);
    if id.Some? {
      assert forall i :: 0 <= i < |PREFIX| ==> PREFIX[i] != ':';
    }
  }

  datatype Saved = Saved(accounts: set<string>, watermark: string)

  class Registry {
    var accounts: set<string>
    var watermark: string
    var disk: Saved
    ghost var faults: nat
    ghost var given: seq<string>  // every code given out, deleted ones included

    ghost predicate Valid()
      reads this
    {
      && disk == Saved(accounts, watermark)
      && (forall i, j :: 0 <= i < j < |given| ==> PlaceOf(given[i]) < PlaceOf(given[j]))
      && (watermark == "" ==> given == [])
      && (watermark != "" ==> forall i :: 0 <= i < |given| ==> PlaceOf(given[i]) <= PlaceOf(watermark))
      && (watermark != "" ==> forall id :: id in accounts ==> PlaceOf(id) <= PlaceOf(watermark))
    }

    /** A state file from before the watermark existed. */
    constructor (legacy: set<string>)
      ensures Valid() && accounts == legacy && given == []
    {
      accounts, watermark, disk, faults, given := legacy, "", Saved(legacy, ""), 0, [];
    }

    method Persist() returns (ok: bool)
      modifies this`disk, this`faults
      ensures disk == if ok then Saved(accounts, watermark) else old(disk)
      ensures faults == old(faults) + if ok then 0 else 1
    {
      ok := *;
      if ok {
        disk := Saved(accounts, watermark);
      } else {
        faults := faults + 1;
      }
    }

    /** The highest code in use, whatever order the map is walked in. */
    method Seed() returns (letter: nat, digit: nat)
      ensures letter < 26 && digit <= 9 && (digit == 0 ==> letter == 0)
      ensures forall id :: id in accounts ==> PlaceOf(id) <= 9 * letter + digit
      ensures digit > 0 ==> exists id :: id in accounts && PlaceOf(id) == 9 * letter + digit
    {
      letter, digit := 0, 0;
      var rest := accounts;
      while rest != {}
        invariant letter < 26 && digit <= 9 && (digit == 0 ==> letter == 0)
        invariant rest <= accounts && forall id :: id in accounts && id !in rest ==> PlaceOf(id) <= 9 * letter + digit
        invariant digit > 0 ==> exists id :: id in accounts && PlaceOf(id) == 9 * letter + digit
        decreases rest
      {
        var id :| id in rest;
        rest := rest - {id};
        var s := Suffix(id);
        if IsCode(s) && (Letter(s) > letter || (Letter(s) == letter && DigitOf(s) > digit)) {
          letter, digit := Letter(s), DigitOf(s);
        }
      }
    }

    method NextID() returns (id: Option<string>)
      requires Valid()
      ensures id.Some? ==> PlaceOf(id.value) > 0
      ensures id.Some? ==> |id.value| == 10 && "account-" <= id.value
      ensures id.Some? ==> forall i :: 0 <= i < |given| ==> PlaceOf(given[i]) < PlaceOf(id.value)
      ensures id.Some? ==> forall a :: a in accounts ==> PlaceOf(a) < PlaceOf(id.value)
      ensures id.None? ==> exists a :: (a in accounts || a == watermark) && PlaceOf(a) == LAST_PLACE
    {
      var mark := watermark;
      if mark == "" {
        var letter, digit := Seed();
        if digit > 0 {
          mark := CodeText(letter, digit);
          CodeReadsBack(letter, digit);
        }
      }
      NextPlace(mark);
      id := NewAccountID(mark);
    }

    /** An account without an explicit identifier. */
    method Create() returns (id: Option<string>)
      requires Valid()
      modifies this
      ensures Valid() && faults >= old(faults)
      ensures id.Some? ==> id.value !in old(accounts) && id.value !in old(given)
      ensures id.Some? ==>
                accounts == old(accounts) + {id.value} && given == old(given) + [id.value] && watermark == id.value
      ensures id.None? ==> accounts == old(accounts) && given == old(given) && watermark == old(watermark)
      ensures id.None? && faults == old(faults) ==>
                exists a :: (a in accounts || a == watermark) && PlaceOf(a) == LAST_PLACE
    {
      id := NextID();
      if id.None? {
        return;
      }
      var previous, mark := accounts, watermark;
      watermark := id.value;
      accounts := accounts + {id.value};
      var ok := Persist();
      if ok {
        given := given + [id.value];
      } else {
        accounts := accounts - {id.value};
        watermark := mark;
        assert accounts == previous;
        id := None;
      }
    }

    method Delete(id: string) returns (ok: bool)
      requires Valid()
      modifies this`accounts, this`disk, this`faults
      ensures Valid() && faults >= old(faults)
      ensures ok ==> id in old(accounts)
      ensures accounts == if ok then old(accounts) - {id} else old(accounts)
      ensures !ok && id in old(accounts) ==> faults > old(faults)
    {
      if id !in accounts {
        return false;
      }
      var previous := accounts;
      accounts := accounts - {id};
      ok := Persist();
      if !ok {
        accounts := accounts + {id};
        assert accounts == previous;
      }
    }
  }
}
