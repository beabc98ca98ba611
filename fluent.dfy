/**
 * What a check raises and how `to(p)` chains, shared by Subject.java and
 * Assumption.java.  A thrown AssertionError or AssumptionViolatedException
 * becomes a `Failure` value tagged with its kind.
 */
module Fluent {

  /** The two failure kinds: a hard assertion failure, and a violated assumption (a skip). */
  datatype Kind = AssertionError | AssumptionViolated

  /** A raised failure: its kind and its message. */
  datatype Failure = Failure(kind: Kind, message: string)

  /** What a `test(p)` does: return normally, or raise. */
  datatype Outcome = Pass | Failed(failure: Failure)

  /** What a `to(p)` does: return an object (normally `this`), or raise. */
  datatype Checked<S> = Returned(self: S) | Raised(failure: Failure)

  /**
   * The body shared by `Subject.to` and `Assumption.to`: run the test, and
   * return `this` unless the test raised.
   */
  function Then<S>(self: S, o: Outcome): (r: Checked<S>)
    ensures r.Returned? <==> o.Pass?
    ensures r.Returned? ==> r.self == self
    ensures r.Raised? ==> o.Failed? && r.failure == o.failure
  {
    if o.Pass? then Returned(self) else Raised(o.failure)
  }

  /**
   * The chained expression `start.to(ps[0]).to(ps[1])...`, evaluated left to
   * right: each `to` is applied to what the previous one returned, and once a
   * `to` has raised, the raise propagates past every remaining call.
   */
  function Chain<S, P>(start: Checked<S>, check: (S, P) -> Outcome, ps: seq<P>): (r: Checked<S>)
    ensures start.Raised? ==> r == start
    ensures r.Returned? ==> start.Returned? && r.self == start.self
    ensures ps == [] ==> r == start
    decreases |ps|
  {
    if start.Raised? || ps == [] then start
    else Chain(Then(start.self, check(start.self, ps[0])), check, ps[1..])
  }

  /** A raised failure passes through the rest of a chain untouched. */
  lemma {:induction false} ChainPropagates<S, P>(f: Failure, check: (S, P) -> Outcome, ps: seq<P>)
    ensures Chain(Raised(f), check, ps) == Raised(f)
  {
  }

  /**
   * A chain started on `self` returns normally iff every check in it passes
   * on `self`, and then it returns `self` itself.
   */
  lemma {:induction false} ChainReturnsIff<S, P>(self: S, check: (S, P) -> Outcome, ps: seq<P>)
    ensures Chain(Returned(self), check, ps).Returned? <==> forall i :: 0 <= i < |ps| ==> check(self, ps[i]).Pass?
    ensures Chain(Returned(self), check, ps).Returned? ==> Chain(Returned(self), check, ps).self == self
  {
    if ps != [] {
      var o := check(self, ps[0]);
      if o.Pass? {
        ChainReturnsIff(self, check, ps[1..]);
        forall i | 1 <= i < |ps|
          ensures ps[i] == ps[1..][i - 1]
        {
        }
      } else {
        ChainPropagates(o.failure, check, ps[1..]);
      }
    }
  }

  /**
   * When the check of `ps[k]` is the first that fails, the chain raises
   * exactly that failure.  The result does not depend on `ps[k + 1..]`: no
   * later check is ever evaluated.
   */
  lemma {:induction false} ChainRaisesFirst<S, P>(self: S, check: (S, P) -> Outcome, ps: seq<P>, k: nat)
    requires k < |ps| && check(self, ps[k]).Failed?
    requires forall j :: 0 <= j < k ==> check(self, ps[j]).Pass?
    ensures Chain(Returned(self), check, ps) == Raised(check(self, ps[k]).failure)
  {
    if k == 0 {
      ChainPropagates(check(self, ps[0]).failure, check, ps[1..]);
    } else {
      assert check(self, ps[0]).Pass?;
      ChainRaisesFirst(self, check, ps[1..], k - 1);
    }
  }

  /**
   * Appending one more `.to(p)` to a chain: if the chain so far raised, so
   * does the longer one; otherwise the result is that of the last `to`.
   */
  lemma {:induction false} ChainSnoc<S, P>(start: Checked<S>, check: (S, P) -> Outcome, ps: seq<P>, p: P)
    ensures Chain(start, check, ps + [p]) ==
      (var r := Chain(start, check, ps); if r.Raised? then r else Then(r.self, check(r.self, p)))
    decreases |ps|
  {
    if start.Raised? {
      ChainPropagates(start.failure, check, ps + [p]);
      ChainPropagates(start.failure, check, ps);
    } else if ps == [] {
      var r := Then(start.self, check(start.self, p));
      if r.Raised? {
        ChainPropagates(r.failure, check, []);
      }
    } else {
      assert (ps + [p])[1..] == ps[1..] + [p];
      ChainSnoc(Then(start.self, check(start.self, ps[0])), check, ps[1..], p);
    }
  }
}
