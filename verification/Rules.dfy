/** Validation that reports the first broken rule. */
module Rules {
  import opened Market

  /** `first` is a broken rule that comes before all other broken ones; there is none exactly when none is broken. */
  ghost predicate FirstBroken<R(!new)>(place: R -> int, broken: R -> bool, first: Option<R>) {
    match first
    case None => forall rule :: !broken(rule)
    case Some(found) => broken(found) && forall rule :: broken(rule) ==> place(found) <= place(rule)
  }
}
