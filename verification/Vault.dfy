/** The encrypted session vault of one account: loading and saving are atomic and may fail. */
module Vault {
  import opened Prelude

  /** Access tokens; "" stands for none. Stored tokens carry no surrounding blanks. */
  type Token = string

  /** A session in the ledger; workbench tells whether the workbench itself created it. */
  datatype Managed = Managed(remote: string, workbench: bool, lastSeen: int, pinned: bool)

  /** What the vault keeps. An expiry of None is a token without a known end. */
  datatype Saved = Saved(
    parent: Token,
    parentUntil: Option<int>,
    lottery: Token,
    lotteryUntil: Option<int>,
    user: int,
    cookies: seq<string>,
    login: string,
    password: string,
    managed: seq<Managed>)

  function Nothing(): Saved {
    Saved("", None, "", None, 0, [], "", "", [])
  }

  class Vault {
    var saved: Option<Saved>
    ghost var faults: nat

    constructor ()
      ensures saved == None && faults == 0
    {
      saved, faults := None, 0;
    }

    /** Ok(None) when nothing was ever saved. */
    method Load() returns (r: Result<Option<Saved>>)
      modifies this`faults
      ensures r.Ok? ==> r.value == saved && faults == old(faults)
      ensures r.Err? ==> faults == old(faults) + 1
    {
      if * {
        r := Ok(saved);
      } else {
        r, faults := Err, faults + 1;
      }
    }

    method Save(s: Saved) returns (ok: bool)
      modifies this
      ensures saved == if ok then Some(s) else old(saved)
      ensures faults == old(faults) + if ok then 0 else 1
    {
      ok := *;
      if ok {
        saved := Some(s);
      } else {
        faults := faults + 1;
      }
    }
  }
}
