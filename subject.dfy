/**
 * Subject.java: a test subject bound at construction, against which
 * expectations are checked with `to(p)`.
 *
 * The three anonymous subclasses made by `expect`, `expectEachOf` and
 * `expectAtLeastOneOf` become the three constructors of `Subject`.
 */
module Subjects {
  import opened Lambspec
  import opened Fluent
  import opened Descriptive

  /** The bound value or sequence, and the mode its checks run in. */
  datatype Subject<T> =
    | Single(target: T)
    | EachOf(sequence: seq<T>)
    | AtLeastOneOf(sequence: seq<T>)

  /**
   * How `String.format`'s `%s` renders a bound element or target (`item`)
   * and a bound sequence (`sequence`).
   */
  datatype Render<!T> = Render(item: T -> string, sequence: seq<T> -> string)

  /** `expect(target)`: a subject whose single target must meet each expectation. */
  function Expect<T>(target: T): (s: Subject<T>)
    ensures s.Single? && s.target == target
  {
    Single(target)
  }

  /** `expectEachOf(sequence)`: a subject all of whose elements must meet each expectation. */
  function ExpectEachOf<T>(sequence: seq<T>): (s: Subject<T>)
    ensures s.EachOf? && s.sequence == sequence
  {
    EachOf(sequence)
  }

  /** `expectAtLeastOneOf(sequence)`: a subject one of whose elements must meet each expectation. */
  function ExpectAtLeastOneOf<T>(sequence: seq<T>): (s: Subject<T>)
    ensures s.AtLeastOneOf? && s.sequence == sequence
  {
    AtLeastOneOf(sequence)
  }

  /**
   * The template "[%s] did not satisfy [%s]", filled in.  Only the two
   * arguments vary its length; `DidNotSatisfyQuotes` places them.
   */
  function DidNotSatisfy(target: string, description: string): (m: string)
    ensures |m| == |target| + |description| + |"[] did not satisfy []"|
  {
    "[" + target + "] did not satisfy [" + description + "]"
  }

  /**
   * The rendered target stands verbatim right after the opening bracket of
   * the single-value message, and the description just before its closing one.
   */
  lemma DidNotSatisfyQuotes(target: string, description: string)
    ensures DidNotSatisfy(target, description)[1..1 + |target|] == target
    ensures var m := DidNotSatisfy(target, description); m[|m| - 1 - |description|..|m| - 1] == description
  {
  }

  /**
   * The template "[%s] from sequence [%s] did not satisfy [%s]", filled in.
   * Only the three arguments vary its length; `FromSequenceDidNotSatisfyQuotes`
   * places them.
   */
  function FromSequenceDidNotSatisfy(item: string, sequence: string, description: string): (m: string)
    ensures |m| == |item| + |sequence| + |description| + |"[] from sequence [] did not satisfy []"|
  {
    "[" + item + "] from sequence [" + sequence + "] did not satisfy [" + description + "]"
  }

  /**
   * The rendered element, the rendered sequence and the description each
   * stand verbatim in their brackets of the every-element message.
   */
  lemma FromSequenceDidNotSatisfyQuotes(item: string, sequence: string, description: string)
    ensures FromSequenceDidNotSatisfy(item, sequence, description)[1..1 + |item|] == item
    ensures FromSequenceDidNotSatisfy(item, sequence, description)[1 + |item| + |"] from sequence ["|..][..|sequence|] == sequence
    ensures var m := FromSequenceDidNotSatisfy(item, sequence, description); m[|m| - 1 - |description|..|m| - 1] == description
  {
  }

  /**
   * The template "No item from sequence [%s] satisfied [%s]", filled in.
   * Only the two arguments vary its length; `NoItemSatisfiedQuotes` places them.
   */
  function NoItemSatisfied(sequence: string, description: string): (m: string)
    ensures |m| == |sequence| + |description| + |"No item from sequence [] satisfied []"|
  {
    "No item from sequence [" + sequence + "] satisfied [" + description + "]"
  }

  /**
   * The rendered sequence and the description each stand verbatim in their
   * brackets of the some-element message.
   */
  lemma NoItemSatisfiedQuotes(sequence: string, description: string)
    ensures NoItemSatisfied(sequence, description)[|"No item from sequence ["|..][..|sequence|] == sequence
    ensures var m := NoItemSatisfied(sequence, description); m[|m| - 1 - |description|..|m| - 1] == description
  {
  }

  /** `fail(template, args)`: always raises an AssertionError carrying the message; never returns normally. */
  function Fail(message: string): (o: Outcome)
    ensures o.Failed?
    ensures o.failure.kind == AssertionError && o.failure.message == message
  {
    Failed(Failure(AssertionError, message))
  }

  /**
   * The position of the first element of `items` that fails `test`, or
   * `|items|` when every element passes.
   */
  function FirstUnmet<T>(items: seq<T>, test: T -> bool): (k: nat)
    ensures k <= |items|
    ensures forall j :: 0 <= j < k ==> test(items[j])
    ensures k < |items| ==> !test(items[k])
  {
    if items == [] || !test(items[0]) then 0
    else 1 + FirstUnmet(items[1..], test)
  }

  /**
   * What `test(p)` of each kind of subject does: pass, or raise an
   * AssertionError with its message.  A single target passes iff it
   * satisfies `p`; every-element mode passes iff all elements do, and
   * some-element mode iff at least one does.
   */
  function Verdict<T(!new)>(s: Subject<T>, p: Predicate<T>, show: Render<T>): (o: Outcome)
    ensures s.Single? ==> (o.Pass? <==> p.test(s.target))
    ensures s.EachOf? ==> (o.Pass? <==> forall i :: 0 <= i < |s.sequence| ==> p.test(s.sequence[i]))
    ensures s.AtLeastOneOf? ==> (o.Pass? <==> exists i :: 0 <= i < |s.sequence| && p.test(s.sequence[i]))
    ensures o.Failed? ==> o.failure.kind == AssertionError
  {
    match s
    case Single(target) =>
      if !p.test(target) then Fail(DidNotSatisfy(show.item(target), p.desc)) else Pass
    case EachOf(sequence) =>
      var k := FirstUnmet(sequence, p.test);
      if k < |sequence|
      then Fail(FromSequenceDidNotSatisfy(show.item(sequence[k]), show.sequence(sequence), p.desc))
      else Pass
    case AtLeastOneOf(sequence) =>
      if HaveAnItemSatisfying(p).test(sequence) then Pass
      else Fail(NoItemSatisfied(show.sequence(sequence), p.desc))
  }

  /** `test(p)` of the subject made by `expectEachOf`: fail at the first element that does not satisfy `p`. */
  method TestEachOf<T(!new)>(sequence: seq<T>, p: Predicate<T>, show: Render<T>) returns (o: Outcome)
    ensures o == Verdict(EachOf(sequence), p, show)
  {
    for i := 0 to |sequence|
      invariant forall j :: 0 <= j < i ==> p.test(sequence[j])
    {
      if !p.test(sequence[i]) {
        return Fail(FromSequenceDidNotSatisfy(show.item(sequence[i]), show.sequence(sequence), p.desc));
      }
    }
    return Pass;
  }

  /** `test(p)` of the subject made by `expectAtLeastOneOf`: return at the first element that satisfies `p`, else fail. */
  method TestAtLeastOneOf<T(!new)>(sequence: seq<T>, p: Predicate<T>, show: Render<T>) returns (o: Outcome)
    ensures o == Verdict(AtLeastOneOf(sequence), p, show)
  {
    for i := 0 to |sequence|
      invariant forall j :: 0 <= j < i ==> !p.test(sequence[j])
    {
      if p.test(sequence[i]) {
        return Pass;
      }
    }
    return Fail(NoItemSatisfied(show.sequence(sequence), p.desc));
  }

  /** `test(p)`, dispatched on the kind of subject. */
  method Test<T(!new)>(s: Subject<T>, p: Predicate<T>, show: Render<T>) returns (o: Outcome)
    ensures o == Verdict(s, p, show)
  {
    match s
    case Single(target) =>
      o := Pass;
      if !p.test(target) {
        o := Fail(DidNotSatisfy(show.item(target), p.desc));
      }
    case EachOf(sequence) =>
      o := TestEachOf(sequence, p, show);
    case AtLeastOneOf(sequence) =>
      o := TestAtLeastOneOf(sequence, p, show);
  }

  /** `to(p)`: test `p`, then return this same subject; a failed test raises instead. */
  method To<T(!new)>(s: Subject<T>, p: Predicate<T>, show: Render<T>) returns (r: Checked<Subject<T>>)
    ensures r.Returned? <==> Verdict(s, p, show).Pass?
    ensures r.Returned? ==> r.self == s
    ensures r.Raised? ==> r.failure == Verdict(s, p, show).failure
  {
    var o := Test(s, p, show);
    if o.Failed? {
      return Raised(o.failure);
    }
    return Returned(s);
  }

  /** The check each `to` of a chain performs, for use with `Fluent.Chain`. */
  function Check<T(!new)>(show: Render<T>): (Subject<T>, Predicate<T>) -> Outcome
  {
    (s: Subject<T>, p: Predicate<T>) => Verdict(s, p, show)
  }

  /** `expect(v).to(p)` raises iff `p` rejects `v`, with the message "[v] did not satisfy [desc]". */
  lemma ExpectFailsIff<T(!new)>(v: T, p: Predicate<T>, show: Render<T>)
    ensures Verdict(Expect(v), p, show).Failed? <==> !p.test(v)
    ensures !p.test(v) ==>
      Verdict(Expect(v), p, show).failure == Failure(AssertionError, "[" + show.item(v) + "] did not satisfy [" + p.desc + "]")
  {
  }

  /** `expectEachOf(sequence).to(p)` passes iff every element satisfies `p`; in particular on an empty sequence. */
  lemma EachOfPassesIff<T(!new)>(sequence: seq<T>, p: Predicate<T>, show: Render<T>)
    ensures Verdict(ExpectEachOf(sequence), p, show).Pass? <==> forall i :: 0 <= i < |sequence| ==> p.test(sequence[i])
    ensures Verdict(ExpectEachOf([]), p, show).Pass?
  {
  }

  /**
   * When `expectEachOf(sequence).to(p)` fails, it names the first element in
   * order that does not satisfy `p`.
   */
  lemma EachOfReportsFirstUnmet<T(!new)>(sequence: seq<T>, p: Predicate<T>, show: Render<T>, k: nat)
    requires k < |sequence| && !p.test(sequence[k])
    requires forall j :: 0 <= j < k ==> p.test(sequence[j])
    ensures Verdict(ExpectEachOf(sequence), p, show) == Failed(Failure(AssertionError,
      "[" + show.item(sequence[k]) + "] from sequence [" + show.sequence(sequence) + "] did not satisfy [" + p.desc + "]"))
  {
  }

  /**
   * `expectAtLeastOneOf(sequence).to(p)` passes iff some element satisfies
   * `p`, and otherwise raises "No item from sequence [...] satisfied [...]";
   * on an empty sequence it always raises.
   */
  lemma AtLeastOneOfPassesIff<T(!new)>(sequence: seq<T>, p: Predicate<T>, show: Render<T>)
    ensures Verdict(ExpectAtLeastOneOf(sequence), p, show).Pass? <==> exists i :: 0 <= i < |sequence| && p.test(sequence[i])
    ensures Verdict(ExpectAtLeastOneOf(sequence), p, show).Failed? ==>
      Verdict(ExpectAtLeastOneOf(sequence), p, show).failure ==
      Failure(AssertionError, "No item from sequence [" + show.sequence(sequence) + "] satisfied [" + p.desc + "]")
    ensures Verdict(ExpectAtLeastOneOf([]), p, show).Failed?
  {
  }

  /**
   * `expect(v).to(ps[0]).to(ps[1])...` returns the same subject iff `v`
   * satisfies every predicate, and otherwise raises the failure of the first
   * predicate `v` does not satisfy.
   */
  lemma {:induction false} ExpectChain<T(!new)>(v: T, ps: seq<Predicate<T>>, show: Render<T>)
    ensures Chain(Returned(Expect(v)), Check(show), ps).Returned? <==> forall i :: 0 <= i < |ps| ==> ps[i].test(v)
    ensures Chain(Returned(Expect(v)), Check(show), ps).Returned? ==> Chain(Returned(Expect(v)), Check(show), ps).self == Expect(v)
    ensures forall k :: 0 <= k < |ps| && !ps[k].test(v) && (forall j :: 0 <= j < k ==> ps[j].test(v)) ==>
      Chain(Returned(Expect(v)), Check(show), ps) == Raised(Failure(AssertionError, DidNotSatisfy(show.item(v), ps[k].desc)))
  {
    var check := Check(show);
    ChainReturnsIff(Expect(v), check, ps);
    assert forall i :: 0 <= i < |ps| ==> (check(Expect(v), ps[i]).Pass? <==> ps[i].test(v));
    forall k | 0 <= k < |ps| && !ps[k].test(v) && (forall j :: 0 <= j < k ==> ps[j].test(v))
      ensures Chain(Returned(Expect(v)), check, ps) == Raised(Failure(AssertionError, DidNotSatisfy(show.item(v), ps[k].desc)))
    {
      ChainRaisesFirst(Expect(v), check, ps, k);
    }
  }

  /**
   * `expect(v).to(p).to(q)` succeeds iff `v` satisfies both; when `p` fails,
   * the failure is `p`'s whatever `q` is, so `q` is never evaluated.
   */
  lemma ExpectToTo<T(!new)>(v: T, p: Predicate<T>, q: Predicate<T>, show: Render<T>)
    ensures Chain(Returned(Expect(v)), Check(show), [p, q]).Returned? <==> p.test(v) && q.test(v)
    ensures !p.test(v) ==> Chain(Returned(Expect(v)), Check(show), [p, q]) == Raised(Failure(AssertionError, DidNotSatisfy(show.item(v), p.desc)))
  {
    ExpectChain(v, [p, q], show);
    if !p.test(v) {
      assert [p, q][0] == p;
    }
  }

  /**
   * `expectEachOf(items).to(ps[0]).to(ps[1])...` returns normally iff every
   * element satisfies every predicate.
   */
  lemma {:induction false} EachOfChain<T(!new)>(items: seq<T>, ps: seq<Predicate<T>>, show: Render<T>)
    ensures Chain(Returned(ExpectEachOf(items)), Check(show), ps).Returned? <==>
      forall i, j :: 0 <= i < |ps| && 0 <= j < |items| ==> ps[i].test(items[j])
  {
    var check := Check(show);
    ChainReturnsIff(ExpectEachOf(items), check, ps);
    forall i | 0 <= i < |ps|
      ensures check(ExpectEachOf(items), ps[i]).Pass? <==> forall j :: 0 <= j < |items| ==> ps[i].test(items[j])
    {
      EachOfPassesIff(items, ps[i], show);
    }
  }

  /**
   * A predicate met with a custom description puts that description verbatim
   * into the failure message: `expect("foo")` against "starts with d",
   * described as "a string that starts with [d]".
   */
  lemma UnmetDescribedExpectation(startsWithD: Predicate<string>, showSequence: seq<string> -> string)
    requires forall s :: startsWithD.test(s) == ("d" <= s)
    ensures Verdict(Expect("foo"), Meet("a string that starts with [d]", startsWithD).AsPredicate(), Render((s: string) => s, showSequence)) ==
      Failed(Failure(AssertionError, "[foo] did not satisfy [a string that starts with [d]]"))
  {
    var p := Meet("a string that starts with [d]", startsWithD).AsPredicate();
    assert !startsWithD.test("foo") by {
      assert "foo"[0] != "d"[0];
    }
    assert !p.test("foo");
    assert p.desc == "a string that starts with [d]";
    DescribedMessage();
  }

  /** The single-value template filled in with "foo" and the description of the scenario above. */
  lemma DescribedMessage()
    ensures DidNotSatisfy("foo", "a string that starts with [d]") == "[foo] did not satisfy [a string that starts with [d]]"
  {
    assert "[" + "foo" + "] did not satisfy [" == "[foo] did not satisfy [";
    var m := "[foo] did not satisfy [" + "a string that starts with [d]" + "]";
    var expected := "[foo] did not satisfy [a string that starts with [d]]";
    forall i | 0 <= i < |m|
      ensures m[i] == expected[i]
    {
    }
  }

  /**
   * `expectEachOf(["foo", "fungo", "fare"])` against "ends with o" names
   * "fare", the first element that does not end with o.
   */
  lemma UnmetEachOfExpectation(endsWithO: Predicate<string>, showSequence: seq<string> -> string)
    requires endsWithO.test("foo") && endsWithO.test("fungo") && !endsWithO.test("fare")
    ensures Verdict(ExpectEachOf(["foo", "fungo", "fare"]), endsWithO, Render((s: string) => s, showSequence)) ==
      Failed(Failure(AssertionError,
        "[fare] from sequence [" + showSequence(["foo", "fungo", "fare"]) + "] did not satisfy [" + endsWithO.desc + "]"))
  {
    var items := ["foo", "fungo", "fare"];
    var show := Render((s: string) => s, showSequence);
    assert items[0] == "foo" && items[1] == "fungo" && items[2] == "fare";
    EachOfReportsFirstUnmet(items, endsWithO, show, 2);
    assert show.item(items[2]) == "fare";
    assert "[" + "fare" + "] from sequence [" == "[fare] from sequence [";
  }

  /** `expectAtLeastOneOf(["a", "b", "c"]).to(be("d"))` raises "No item from sequence [...] satisfied [...]". */
  lemma UnmetAtLeastOneOfExpectation(show: Render<string>)
    ensures Verdict(ExpectAtLeastOneOf(["a", "b", "c"]), Be("d"), show) ==
      Failed(Failure(AssertionError, "No item from sequence [" + show.sequence(["a", "b", "c"]) + "] satisfied [" + Anonymous + "]"))
  {
    var items := ["a", "b", "c"];
    assert forall i :: 0 <= i < |items| ==> items[i] != "d";
  }

  /** `expect(["a", "b", "c"]).to(have("b")).to(have("c"))` returns the subject. */
  lemma HaveChainScenario(show: Render<seq<string>>)
    ensures Chain(Returned(Expect(["a", "b", "c"])), Check(show), [Have("b"), Have("c")]) == Returned(Expect(["a", "b", "c"]))
  {
    var items := ["a", "b", "c"];
    assert items[1] == "b" && items[2] == "c";
    ExpectToTo(items, Have("b"), Have("c"), show);
  }
}
