/** Values from outside: random ids, the clock, and whether the database does what it is told. */
module Outside {
  /** An id that is not in use, standing for a random one. */
  method Unused(ids: set<nat>) returns (id: nat)
    ensures id !in ids
  {
    var todo := ids;
    id := 0;
    while todo != {}
      invariant todo <= ids
      invariant forall i :: i in ids && i !in todo ==> i < id
      decreases todo
    {
      var i :| i in todo;
      todo := todo - {i};
      if id <= i { id := i + 1; }
    }
  }

  /** A clock reading not before an earlier one; callers know nothing more than that. */
  method ReadClock(since: int) returns (t: int)
    ensures since <= t
  {
    t := since;
  }

  /** Whether a statement or transaction succeeds. */
  method Succeeds() returns (b: bool) {
    b := *;
  }
}
