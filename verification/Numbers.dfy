/** Numbers that stand for addresses, ids and handles are handed out by an allocator. */
module Numbers {

  /** Some number that is not in use; which one is left open to callers. */
  method Unused(used: set<nat>) returns (id: nat)
    ensures id !in used
  {
    id := 0;
    var rest := used;
    while rest != {}
      invariant rest <= used && forall j :: j in used && j !in rest ==> j < id
      decreases rest
    {
      var j :| j in rest;
      if id <= j {
        id := j + 1;
      }
      rest := rest - {j};
    }
    assert id in used ==> id < id;
  }
}
