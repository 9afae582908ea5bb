/** What every part shares: identifiers, times and optional values. */
module Basics {

  /** Identifiers are 128-bit random values printed with a fixed width, so their text
      order is the order of the numbers. */
  type Id = nat

  /** Unix seconds. */
  type Time = int

  datatype Option<+T> = None | Some(value: T)

  /** A number above every member of a finite set. */
  ghost function Above(used: set<Id>): (b: Id)
    ensures forall x | x in used :: x < b
  {
    if used == {} then 0
    else
      var x :| x in used;
      assert used == used - {x} + {x};
      var rest := Above(used - {x});
      if x < rest then rest else x + 1
  }

  /** There is always an identifier that was never drawn. */
  lemma FreshExists(used: set<Id>)
    ensures exists x: Id :: x !in used
  {
    var b := Above(used);
    assert b !in used;
  }
}
