/** Shared value types. */
module Base {

  datatype Option<+T> = None | Some(value: T)

  datatype Result<+T> = Ok(value: T) | Err(error: string)

  /** A finite nonempty set of naturals has a least element. */
  lemma LeastOf(ids: set<nat>) returns (least: nat)
    requires ids != {}
    ensures least in ids && forall id | id in ids :: least <= id
    decreases |ids|
  {
    least :| least in ids;
    var rest := ids - {least};
    if rest != {} {
      var other := LeastOf(rest);
      assert forall id | id in ids :: id == least || id in rest;
      least := if other < least then other else least;
    } else {
      assert forall id | id in ids :: id == least || id in rest;
    }
  }
}
