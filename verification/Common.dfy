/** Vocabulary shared by the models. */
module Common {
  datatype Option<+T> = None | Some(value: T)

  /** A nullable deadline: the zero time lies before every clock reading. */
  predicate Before(now: int, deadline: Option<int>) {
    deadline.Some? && now < deadline.value
  }

  lemma Pick<T>(s: set<T>) returns (x: T)
    requires s != {}
    ensures x in s
  {
    x :| x in s;
  }
}
