/**
 * The predicate combinators of Lambspec.java.
 *
 * A java.util.function.Predicate is modelled as the pair of what it answers
 * (`test`) and what its toString() answers (`desc`).  Predicates are pure and
 * total here, so evaluation order inside `or`/`and` is not observable.
 */
module Lambspec {

  /** A predicate: how it evaluates a target, and how it describes itself. */
  datatype Predicate<!T> = Predicate(test: T -> bool, desc: string)

  /**
   * The description of a predicate built from a lambda, a method reference or
   * one of Predicate's default methods (or, and, negate, isEqual).  On the JVM
   * that is an identity-based class@hash string; here it is one fixed string.
   */
  const Anonymous: string := "<anonymous predicate>"

  /** `alwaysTrue`: answers true whatever its argument. */
  function AlwaysTrue<T(!new)>(): (r: Predicate<T>)
    ensures forall x :: r.test(x)
  {
    Predicate((_: T) => true, Anonymous)
  }

  /** `alwaysFalse`: the negation of `alwaysTrue`, so false whatever its argument. */
  function AlwaysFalse<T(!new)>(): (r: Predicate<T>)
    ensures forall x :: !r.test(x)
    ensures r.desc == Anonymous
  {
    Not(AlwaysTrue())
  }

  /** `satisfy(p)`: sugar that hands back `p` itself. */
  function Satisfy<T(!new)>(p: Predicate<T>): (r: Predicate<T>)
    ensures forall x :: r.test(x) == p.test(x)
    ensures r.desc == p.desc
  {
    p
  }

  /** java.util.function.Predicate.or: true when either side is. */
  function Or<T(!new)>(p: Predicate<T>, q: Predicate<T>): (r: Predicate<T>)
    ensures forall x :: r.test(x) <==> p.test(x) || q.test(x)
    ensures r.desc == Anonymous
  {
    Predicate(x => p.test(x) || q.test(x), Anonymous)
  }

  /** java.util.function.Predicate.and: true when both sides are. */
  function And<T(!new)>(p: Predicate<T>, q: Predicate<T>): (r: Predicate<T>)
    ensures forall x :: r.test(x) <==> p.test(x) && q.test(x)
    ensures r.desc == Anonymous
  {
    Predicate(x => p.test(x) && q.test(x), Anonymous)
  }

  /**
   * `satisfyAny(first, rest...)`: folds `or` over the predicates, left to
   * right.  With no `rest` the result is `first` itself.
   */
  method SatisfyAny<T(!new)>(first: Predicate<T>, rest: seq<Predicate<T>>) returns (disjunction: Predicate<T>)
    ensures forall x :: disjunction.test(x) <==> first.test(x) || exists i :: 0 <= i < |rest| && rest[i].test(x)
    ensures rest == [] ==> disjunction == first
    ensures rest != [] ==> disjunction.desc == Anonymous
  {
    disjunction := first;
    for i := 0 to |rest|
      invariant forall x :: disjunction.test(x) <==> first.test(x) || exists j :: 0 <= j < i && rest[j].test(x)
      invariant i == 0 ==> disjunction == first
      invariant i > 0 ==> disjunction.desc == Anonymous
    {
      disjunction := Or(disjunction, rest[i]);
    }
  }

  /**
   * `satisfyAll(first, rest...)`: folds `and` over the predicates, left to
   * right.  With no `rest` the result is `first` itself.
   */
  method SatisfyAll<T(!new)>(first: Predicate<T>, rest: seq<Predicate<T>>) returns (conjunction: Predicate<T>)
    ensures forall x :: conjunction.test(x) <==> first.test(x) && forall i :: 0 <= i < |rest| ==> rest[i].test(x)
    ensures rest == [] ==> conjunction == first
    ensures rest != [] ==> conjunction.desc == Anonymous
  {
    conjunction := first;
    for i := 0 to |rest|
      invariant forall x :: conjunction.test(x) <==> first.test(x) && forall j :: 0 <= j < i ==> rest[j].test(x)
      invariant i == 0 ==> conjunction == first
      invariant i > 0 ==> conjunction.desc == Anonymous
    {
      conjunction := And(conjunction, rest[i]);
    }
  }

  /**
   * `haveAnItemSatisfying(p)`: a predicate on sequences that holds when some
   * element satisfies `p`.  Its evaluation is the scan `ItemSatisfying` below.
   */
  function HaveAnItemSatisfying<T(!new)>(p: Predicate<T>): (r: Predicate<seq<T>>)
    ensures forall items :: r.test(items) <==> exists i :: 0 <= i < |items| && p.test(items[i])
    ensures r.desc == Anonymous
  {
    Predicate((items: seq<T>) => exists i | 0 <= i < |items| :: p.test(items[i]), Anonymous)
  }

  /**
   * The body of the predicate `haveAnItemSatisfying(p)` returns: scan the
   * items in order and answer true at the first one that satisfies `p`.
   */
  method ItemSatisfying<T(!new)>(p: Predicate<T>, items: seq<T>) returns (found: bool)
    ensures found == HaveAnItemSatisfying(p).test(items)
    ensures found <==> exists i :: 0 <= i < |items| && p.test(items[i])
  {
    for i := 0 to |items|
      invariant forall j :: 0 <= j < i ==> !p.test(items[j])
    {
      if p.test(items[i]) {
        return true;
      }
    }
    return false;
  }

  /** `be(other)`: Predicate.isEqual, true of exactly the values equal to `other`. */
  function Be<T(==,!new)>(other: T): (r: Predicate<T>)
    ensures forall x :: r.test(x) <==> x == other
    ensures r.desc == Anonymous
  {
    Predicate(x => other == x, Anonymous)
  }

  /** `have(item)`: `haveAnItemSatisfying(be(item))`, so true when `item` occurs in the sequence. */
  function Have<T(==,!new)>(item: T): (r: Predicate<seq<T>>)
    ensures forall items :: r.test(items) <==> item in items
    ensures r.desc == Anonymous
  {
    HaveAnItemSatisfying(Be(item))
  }

  /** `not(p)`: Predicate.negate. */
  function Not<T(!new)>(p: Predicate<T>): (r: Predicate<T>)
    ensures forall x :: r.test(x) == !p.test(x)
    ensures r.desc == Anonymous
  {
    Predicate(x => !p.test(x), Anonymous)
  }

  /** Negating twice evaluates like the original predicate (only the description is lost). */
  lemma NotNot<T(!new)>(p: Predicate<T>, x: T)
    ensures Not(Not(p)).test(x) == p.test(x)
  {
  }
}
