/** DescriptivePredicate.java: a predicate that evaluates like its delegate but describes itself with a given string. */
module Descriptive {
  import opened Lambspec

  /** Both fields are final in the source, so the record is an immutable value. */
  datatype DescriptivePredicate<!T> = DescriptivePredicate(description: string, delegate: Predicate<T>) {

    /** `test(target)`: delegates evaluation. */
    function Test(target: T): (b: bool)
      ensures b == delegate.test(target)
    {
      delegate.test(target)
    }

    /** `toString()`: the stored description, never the delegate's. */
    function ToString(): (s: string)
      ensures s == description
    {
      description
    }

    /** The object seen through the Predicate interface it implements, as `to(p)` receives it. */
    function AsPredicate(): (r: Predicate<T>)
      ensures r.desc == ToString()
      ensures r.test == delegate.test
    {
      Predicate(delegate.test, description)
    }
  }

  /**
   * `meet(description, delegate)`: evaluates exactly like `delegate` and is
   * described exactly by `description`, whatever `delegate.desc` is.
   */
  function Meet<U(!new)>(description: string, delegate: Predicate<U>): (r: DescriptivePredicate<U>)
    ensures forall x :: r.Test(x) == delegate.test(x)
    ensures r.ToString() == description
    ensures r.AsPredicate().desc == description
  {
    DescriptivePredicate(description, delegate)
  }

  /**
   * Two predicates that evaluate alike, met with the same description, are
   * indistinguishable through the Predicate interface: the delegate's own
   * description never shows.
   */
  lemma MeetHidesDelegateDescription<U(!new)>(description: string, p: Predicate<U>, q: Predicate<U>)
    requires p.test == q.test
    ensures Meet(description, p).AsPredicate() == Meet(description, q).AsPredicate()
  {
  }
}
