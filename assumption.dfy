/**
 * Assumption.java: the single-value check of `expect`, raising a violated
 * assumption (which a test runner reads as "skip") instead of an
 * AssertionError.
 */
module Assumptions {
  import opened Lambspec
  import opened Fluent
  import Subjects

  /** The object assumptions are made on, fixed at construction. */
  datatype Assumption<T> = Assumption(target: T)

  /** `assume(target)`: establishes `target` as the object of later assumptions. */
  function Assume<T>(target: T): (a: Assumption<T>)
    ensures a.target == target
  {
    Assumption(target)
  }

  /** `fail(template, args)`: always raises an AssumptionViolatedException carrying the message. */
  function Fail(message: string): (o: Outcome)
    ensures o.Failed?
    ensures o.failure.kind == AssumptionViolated && o.failure.message == message
  {
    Failed(Failure(AssumptionViolated, message))
  }

  /**
   * `test(p)`: passes iff `p` holds of the target; otherwise raises a
   * violated assumption whose message is the template `expect` uses.
   */
  function Verdict<T(!new)>(a: Assumption<T>, p: Predicate<T>, show: T -> string): (o: Outcome)
    ensures o.Pass? <==> p.test(a.target)
    ensures o.Failed? ==> o.failure.kind == AssumptionViolated
    ensures o.Failed? ==> o.failure.message == Subjects.DidNotSatisfy(show(a.target), p.desc)
  {
    if !p.test(a.target) then Fail("[" + show(a.target) + "] did not satisfy [" + p.desc + "]") else Pass
  }

  /**
   * `to(p)`: returns this same assumption when `p` holds of the target, and
   * otherwise raises a violated assumption naming the target and `p`.
   */
  function To<T(!new)>(a: Assumption<T>, p: Predicate<T>, show: T -> string): (r: Checked<Assumption<T>>)
    ensures r.Returned? <==> p.test(a.target)
    ensures r.Returned? ==> r.self == a
    ensures r.Raised? ==> r.failure == Failure(AssumptionViolated, "[" + show(a.target) + "] did not satisfy [" + p.desc + "]")
  {
    Then(a, Verdict(a, p, show))
  }

  /** The check each `to` of a chain performs, for use with `Fluent.Chain`. */
  function Check<T(!new)>(show: T -> string): (Assumption<T>, Predicate<T>) -> Outcome
  {
    (a: Assumption<T>, p: Predicate<T>) => Verdict(a, p, show)
  }

  /**
   * A failed assumption carries the very message `expect(v).to(p)` would,
   * but is a violated assumption where `expect` raises an AssertionError.
   */
  lemma ViolationMirrorsExpectation<T(!new)>(v: T, p: Predicate<T>, show: Subjects.Render<T>)
    requires !p.test(v)
    ensures To(Assume(v), p, show.item).Raised?
    ensures Subjects.Verdict(Subjects.Expect(v), p, show).Failed?
    ensures To(Assume(v), p, show.item).failure.message == Subjects.Verdict(Subjects.Expect(v), p, show).failure.message
    ensures To(Assume(v), p, show.item).failure.kind == AssumptionViolated
    ensures Subjects.Verdict(Subjects.Expect(v), p, show).failure.kind == AssertionError
  {
  }

  /**
   * `assume(v).to(ps[0]).to(ps[1])...` returns the same assumption iff `v`
   * satisfies every predicate; otherwise it raises the violation of the
   * first predicate `v` does not satisfy, and no later one is evaluated.
   */
  lemma {:induction false} AssumeChain<T(!new)>(v: T, ps: seq<Predicate<T>>, show: T -> string)
    ensures Chain(Returned(Assume(v)), Check(show), ps).Returned? <==> forall i :: 0 <= i < |ps| ==> ps[i].test(v)
    ensures Chain(Returned(Assume(v)), Check(show), ps).Returned? ==> Chain(Returned(Assume(v)), Check(show), ps).self == Assume(v)
    ensures forall k :: 0 <= k < |ps| && !ps[k].test(v) && (forall j :: 0 <= j < k ==> ps[j].test(v)) ==>
      Chain(Returned(Assume(v)), Check(show), ps) ==
      Raised(Failure(AssumptionViolated, "[" + show(v) + "] did not satisfy [" + ps[k].desc + "]"))
  {
    var check := Check(show);
    ChainReturnsIff(Assume(v), check, ps);
    assert forall i :: 0 <= i < |ps| ==> (check(Assume(v), ps[i]).Pass? <==> ps[i].test(v));
    forall k | 0 <= k < |ps| && !ps[k].test(v) && (forall j :: 0 <= j < k ==> ps[j].test(v))
      ensures Chain(Returned(Assume(v)), check, ps) ==
        Raised(Failure(AssumptionViolated, "[" + show(v) + "] did not satisfy [" + ps[k].desc + "]"))
    {
      ChainRaisesFirst(Assume(v), check, ps, k);
    }
  }
}
