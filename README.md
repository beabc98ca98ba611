# lambspec, modelled in Dafny

lambspec is a small fluent assertion library for Java. A caller binds a
value, or a sequence of values, as a *subject* and chains checks on it with
`to(p)`, where each `p` is a `java.util.function.Predicate`. A check that
does not hold raises a failure whose message comes from a fixed template
naming the subject and the predicate's description (its `toString()`).
Predicates are built with the combinators of `Lambspec` (`satisfy`,
`satisfyAny`, `satisfyAll`, `not`, `be`, `have`, `haveAnItemSatisfying`,
`alwaysTrue`, `alwaysFalse`). `DescriptivePredicate.meet` replaces a
predicate's description. `Assumption` is the single-value check again, but
it raises a violated assumption, which JUnit reads as "skip", instead of an
AssertionError.

The model has five modules:

- `lambspec.dfy` (`Lambspec`): a predicate is the record `Predicate(test, desc)`.
  The combinators are functions. `satisfyAny` and `satisfyAll` fold `or`/`and`
  in a `for` loop, so they are methods with loops. The scanning loop inside the
  predicate that `haveAnItemSatisfying` returns is the method `ItemSatisfying`.
- `descriptive.dfy` (`Descriptive`): `DescriptivePredicate` as an immutable
  record with `Test`, `ToString` and `Meet`.
- `fluent.dfy` (`Fluent`): failure kinds, the result of a `test` (`Outcome`)
  and of a `to` (`Checked`). A thrown exception becomes a `Raised` value.
  `Chain` is the chained expression `s.to(p1).to(p2)...`, with lemmas on when it
  returns and which failure it raises.
- `subject.dfy` (`Subjects`): the three anonymous subclasses of `Subject` are the
  three constructors `Single`, `EachOf` and `AtLeastOneOf`. `Verdict` specifies
  what `test(p)` does in each mode. The methods `TestEachOf`, `TestAtLeastOneOf`,
  `Test` and `To` follow the source's loops and early exits, and are proved
  against `Verdict`.
- `assumption.dfy` (`Assumptions`): `assume`, `to` and `fail`, which raise the
  `AssumptionViolated` kind.

How `String.format`'s `%s` renders a value or a sequence is a parameter,
`Render(item, sequence)` (a plain `show` function for `Assumption`). Only the
concatenation of each message template is specified.

Naming: the model uses the names that `Subject.java` defines (`expect`,
`expectEachOf`, `expectAtLeastOneOf`, `to`). Lambspec.java's Javadoc (lines 45,
50, 67, 88, 136) calls the chaining call `must` on a `subject(..)`. The older
test src/test/java/com/pholser/lambspec/ExpectationsTest.java:53 calls the
second factory `expectEvery`. The current tests call `eachOf` and
`atLeastOneOf`. Where these disagree, the model follows the code.

## Model

| member | source | states |
|---|---|---|
| Lambspec.AlwaysTrue | core/src/main/java/com/pholser/lambspec/Lambspec.java:39 | answers true for every argument |
| Lambspec.AlwaysFalse | core/src/main/java/com/pholser/lambspec/Lambspec.java:42 | the negation of alwaysTrue: answers false for every argument, with a lambda's description |
| Lambspec.Satisfy | core/src/main/java/com/pholser/lambspec/Lambspec.java:56-58 | returns p unchanged: same evaluation, same description |
| Lambspec.Or | core/src/main/java/com/pholser/lambspec/Lambspec.java:77 | Predicate.or holds iff either side holds |
| Lambspec.And | core/src/main/java/com/pholser/lambspec/Lambspec.java:98 | Predicate.and holds iff both sides hold |
| Lambspec.SatisfyAny | core/src/main/java/com/pholser/lambspec/Lambspec.java:74-79 | the fold holds of x iff first(x) or some rest[i](x); with empty rest it is first itself, otherwise it has a lambda's description |
| Lambspec.SatisfyAll | core/src/main/java/com/pholser/lambspec/Lambspec.java:95-100 | the fold holds of x iff first(x) and every rest[i](x); with empty rest it is first itself, otherwise it has a lambda's description |
| Lambspec.HaveAnItemSatisfying | core/src/main/java/com/pholser/lambspec/Lambspec.java:110-118 | the predicate holds of a sequence iff some element satisfies p (so never of the empty sequence) |
| Lambspec.ItemSatisfying | core/src/main/java/com/pholser/lambspec/Lambspec.java:111-117 | the scan with early return answers exactly what haveAnItemSatisfying(p) answers: true iff some element satisfies p |
| Lambspec.Be | core/src/main/java/com/pholser/lambspec/Lambspec.java:142-144 | holds of x iff x equals other |
| Lambspec.Have | core/src/main/java/com/pholser/lambspec/Lambspec.java:127-129 | haveAnItemSatisfying(be(item)) holds of a sequence iff item occurs in it |
| Lambspec.Not | core/src/main/java/com/pholser/lambspec/Lambspec.java:155-157 | not(p)(x) == !p(x) for every x |
| Lambspec.NotNot | core/src/main/java/com/pholser/lambspec/Lambspec.java:155-157 | not(not(p)) evaluates like p |
| Descriptive.DescriptivePredicate.Test | core/src/main/java/com/pholser/lambspec/DescriptivePredicate.java:63-65 | test answers what the delegate answers |
| Descriptive.DescriptivePredicate.ToString | core/src/main/java/com/pholser/lambspec/DescriptivePredicate.java:67-69 | toString answers the stored description |
| Descriptive.DescriptivePredicate.AsPredicate | core/src/main/java/com/pholser/lambspec/DescriptivePredicate.java:38-44 | seen as a Predicate, it evaluates with the delegate's test and is described by the stored description |
| Descriptive.Meet | core/src/main/java/com/pholser/lambspec/DescriptivePredicate.java:56-61 | meet(d, p) evaluates like p everywhere and is described exactly by d |
| Descriptive.MeetHidesDelegateDescription | core/src/main/java/com/pholser/lambspec/DescriptivePredicate.java:56-69 | meeting two predicates that evaluate alike with the same d gives the same predicate: the delegate's description never shows |
| Fluent.Then | core/src/main/java/com/pholser/lambspec/Subject.java:103-106 | to(p) returns this iff the test passed, and otherwise raises the test's failure |
| Fluent.Chain | core/src/main/java/com/pholser/lambspec/Subject.java:103-106 | the chained to calls: a chain started on a raised call stays raised with that failure, an empty chain is its start, and a chain that returns normally returns the object it started on |
| Fluent.ChainReturnsIff | core/src/main/java/com/pholser/lambspec/Subject.java:103-106 | a chain of to calls on a value returns normally iff every check passes, and then returns the same object |
| Fluent.ChainRaisesFirst | core/src/main/java/com/pholser/lambspec/Subject.java:103-106 | a chain raises exactly the failure of its first failing check, whatever the later predicates are |
| Fluent.ChainSnoc | core/src/main/java/com/pholser/lambspec/Subject.java:103-106 | appending .to(p) to a chain: a raised chain stays raised, otherwise the result is that of the last to |
| Subjects.Expect | core/src/main/java/com/pholser/lambspec/Subject.java:49-56 | expect binds one target in single-value mode |
| Subjects.ExpectEachOf | core/src/main/java/com/pholser/lambspec/Subject.java:65-74 | expectEachOf binds a sequence in every-element mode |
| Subjects.ExpectAtLeastOneOf | core/src/main/java/com/pholser/lambspec/Subject.java:84-94 | expectAtLeastOneOf binds a sequence in some-element mode |
| Subjects.Fail | core/src/main/java/com/pholser/lambspec/Subject.java:124-126 | fail always raises an AssertionError with the given message; it never returns normally |
| Subjects.DidNotSatisfy | core/src/main/java/com/pholser/lambspec/Subject.java:53 | the single-value message "[%s] did not satisfy [%s]": only the rendered target and the description vary its length |
| Subjects.DidNotSatisfyQuotes | core/src/main/java/com/pholser/lambspec/Subject.java:53 | in that message the rendered target stands verbatim inside the first brackets and the description inside the last |
| Subjects.FromSequenceDidNotSatisfy | core/src/main/java/com/pholser/lambspec/Subject.java:70 | the every-element message "[%s] from sequence [%s] did not satisfy [%s]": only element, sequence and description vary its length |
| Subjects.FromSequenceDidNotSatisfyQuotes | core/src/main/java/com/pholser/lambspec/Subject.java:70 | in that message the rendered element, the rendered sequence and the description each stand verbatim in their brackets |
| Subjects.NoItemSatisfied | core/src/main/java/com/pholser/lambspec/Subject.java:91 | the some-element message "No item from sequence [%s] satisfied [%s]": only sequence and description vary its length |
| Subjects.NoItemSatisfiedQuotes | core/src/main/java/com/pholser/lambspec/Subject.java:91 | in that message the rendered sequence and the description each stand verbatim in their brackets |
| Subjects.Verdict | core/src/main/java/com/pholser/lambspec/Subject.java:49-94 | test(p) passes iff the single target satisfies p, iff every element does (every-element mode), iff some element does (some-element mode); a failure is always an AssertionError |
| Subjects.FirstUnmet | core/src/main/java/com/pholser/lambspec/Subject.java:68-72 | the index the loop stops at: every earlier element passes, and the element there (if any) fails |
| Subjects.TestEachOf | core/src/main/java/com/pholser/lambspec/Subject.java:67-73 | the loop with early fail produces exactly the Verdict of every-element mode |
| Subjects.TestAtLeastOneOf | core/src/main/java/com/pholser/lambspec/Subject.java:86-92 | the loop with early return produces exactly the Verdict of some-element mode |
| Subjects.Test | core/src/main/java/com/pholser/lambspec/Subject.java:49-94 | test, dispatched on the mode, produces exactly the Verdict |
| Subjects.To | core/src/main/java/com/pholser/lambspec/Subject.java:103-106 | to(p) returns the same subject iff the test passes, and otherwise raises the test's failure |
| Subjects.ExpectFailsIff | core/src/main/java/com/pholser/lambspec/Subject.java:49-56 | expect(v).to(p) raises iff !p(v), with the message "[v] did not satisfy [desc(p)]" and kind AssertionError |
| Subjects.EachOfPassesIff | core/src/main/java/com/pholser/lambspec/Subject.java:65-74 | expectEachOf(seq).to(p) passes iff every element satisfies p; it passes on the empty sequence |
| Subjects.EachOfReportsFirstUnmet | core/src/main/java/com/pholser/lambspec/Subject.java:68-71 | when it fails, the message names the first element that fails p: "[e] from sequence [seq] did not satisfy [desc(p)]" |
| Subjects.AtLeastOneOfPassesIff | core/src/main/java/com/pholser/lambspec/Subject.java:84-94 | expectAtLeastOneOf(seq).to(p) passes iff some element satisfies p, otherwise raises "No item from sequence [seq] satisfied [desc(p)]"; it always raises on the empty sequence |
| Subjects.ExpectChain | core/src/main/java/com/pholser/lambspec/Subject.java:103-106 | expect(v).to(p1)...to(pn) returns the same subject iff v satisfies every pi, else raises the first failing pi's message |
| Subjects.ExpectToTo | core/src/test/java/com/pholser/lambspec/ExpectationsTest.java:84 | expect(v).to(p).to(q) succeeds iff p(v) and q(v); when p fails the failure is p's, whatever q is |
| Subjects.EachOfChain | core/src/test/java/com/pholser/lambspec/ExpectationsTest.java:87-89 | expectEachOf(items).to(p1)...to(pn) returns normally iff every element satisfies every predicate |
| Subjects.UnmetDescribedExpectation | core/src/test/java/com/pholser/lambspec/ExpectationsTest.java:56-65 | expect("foo") against a predicate met with "a string that starts with [d]" raises exactly "[foo] did not satisfy [a string that starts with [d]]" |
| Subjects.UnmetEachOfExpectation | core/src/test/java/com/pholser/lambspec/ExpectationsTest.java:91-101 | expectEachOf(["foo", "fungo", "fare"]) against "ends with o" names "fare" in its message |
| Subjects.UnmetAtLeastOneOfExpectation | core/src/test/java/com/pholser/lambspec/ExpectationsTest.java:107-116 | expectAtLeastOneOf(["a", "b", "c"]).to(be("d")) raises "No item from sequence [...] satisfied [...]" |
| Subjects.HaveChainScenario | core/src/test/java/com/pholser/lambspec/ExpectationsTest.java:140-142 | expect(["a", "b", "c"]).to(have("b")).to(have("c")) returns the subject |
| Assumptions.Assume | junit/src/main/java/com/pholser/lambspec/junit/Assumption.java:54-61 | assume binds the target |
| Assumptions.Fail | junit/src/main/java/com/pholser/lambspec/junit/Assumption.java:92-95 | fail always raises, with the AssumptionViolated kind and the given message |
| Assumptions.Verdict | junit/src/main/java/com/pholser/lambspec/junit/Assumption.java:56-59 | test(p) passes iff p holds of the target; otherwise it raises the AssumptionViolated kind with the same "[%s] did not satisfy [%s]" message expect uses |
| Assumptions.To | junit/src/main/java/com/pholser/lambspec/junit/Assumption.java:70-73 | assume(v).to(p) returns the same assumption iff p(v), else raises AssumptionViolated with "[v] did not satisfy [desc(p)]" |
| Assumptions.ViolationMirrorsExpectation | junit/src/main/java/com/pholser/lambspec/junit/Assumption.java:57-58 | a failed assumption has the same message as expect(v).to(p) but the AssumptionViolated kind, where expect raises AssertionError |
| Assumptions.AssumeChain | junit/src/main/java/com/pholser/lambspec/junit/Assumption.java:70-73 | a chain of to calls on an assumption returns it iff v satisfies every predicate, else raises the first failing one's violation |

## Left out

- The Guava and Hamcrest adapters (GuavaPredicate, MatcherPredicate): they only forward to objects outside this model. Any adapted object is just some `Predicate` with some description.
- String rendering: `String.format`, `String.valueOf` and a collection's `toString` are the `Render` parameter (a `show` function for Assumption). Only the template concatenation is modelled.
- The description of a predicate built by a lambda, `or`, `and`, `negate` or `isEqual`: on the JVM it is an identity-based `Class@hash` string. Here it is the single constant `Anonymous`.
- Exceptions: AssertionError and AssumptionViolatedException are `Raised`/`Failed` values tagged with a `Kind`, not throws.
- Java object identity, `null` (including `Predicate.isEqual(null)`) and `Object.equals` subtleties: `be` uses Dafny value equality.
- Predicate side effects and evaluation order inside `or`/`and`: predicates are pure total functions, so short-circuiting cannot be observed and is not stated.
- Lambspec.ItemSatisfying: does not state that the scan stops at the first match, because that cannot be observed with pure predicates over finite sequences.
- `Iterable` is a finite `seq`: single-use or infinite iterables are not modelled.
- Wildcard variance (`Predicate<? super S>`): predicates and subjects share one element type.
- The private `Lambspec` constructor that throws: it has no behaviour.
- Open subclassing of `Subject` and `Assumption` by other code: only the subclasses the factories create are modelled.
