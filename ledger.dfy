/** The shared dedup ledger (`SyncStorage`): the set of source lines whose
    element has already been handed to the callback. The ledger does no
    locking of its own; callers serialise access to it. */
module Ledger {

  class SyncStorage {
    /** The Python set `_set`. */
    var lines: set<int>

    constructor ()
      ensures lines == {}
    {
      lines := {};
    }

    /** `add(value)`: afterwards `value` is present; adding a present value
        changes nothing; no other value's membership changes. */
    method Add(value: int)
      modifies this
      ensures lines == old(lines) + {value}
      ensures value in lines
      ensures value in old(lines) ==> lines == old(lines)
      ensures forall w :: w != value ==> (w in lines <==> w in old(lines))
    {
      lines := lines + {value};
    }

    /** `is_parsed(value)`: whether `value` has been added. */
    method IsParsed(value: int) returns (b: bool)
      ensures b <==> value in lines
    {
      b := value in lines;
    }
  }
}
