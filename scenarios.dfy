/**
 * The behaviours the repository's test suite exercises, as statements about
 * whole runs and about pipes: the helper functions of the suite become
 * fixtures, and each test becomes a lemma about its staged list or a
 * method over a pipe.
 */
module Scenarios {
  import opened Wrappers
  import opened Values
  import opened Steps
  import opened Transforms
  import opened Tags
  import opened Scheduler
  import opened Regions
  import opened Pipes

  /** `x + y` on the numbers the suite uses. */
  function Plus(x: Value, y: int): Value
  {
    if x.Num? then Num(x.n + y) else Undefined
  }

  function Add(y: int): Value -> Value
  {
    (x: Value) => Plus(x, y)
  }

  /** `increment(y)`: a sync step adding `y`. */
  function Inc(y: int): Step
  {
    Pure(Add(y))
  }

  /** `waitAndIncrement(inc)`: an async step that calls back with the sum. */
  function WaitInc(inc: int): Step
  {
    Async((x: Value) => Ok(Plus(x, inc)))
  }

  /** What the two increment steps do with a number. */
  lemma IncrementsAdd(y: int, x: int)
    ensures Inc(y).call(Num(x)) == Returns(Num(x + y))
    ensures WaitInc(y).reply(Num(x)) == Ok(Num(x + y))
  {
  }

  /** `incrementErr`: a sync step whose body reads an undeclared name, a ReferenceError. */
  const IncErr: Step := Sync((x: Value) => Throws(NotDefined))

  /** `waitAndIncrementErr`: an async step whose body throws the same ReferenceError, which its promise turns into a rejection. */
  const WaitIncErr: Step := Async((x: Value) => Err(NotDefined))

  function SumOf(items: seq<Value>): int
  {
    if items == [] then 0 else (if items[0].Num? then items[0].n else 0) + SumOf(items[1..])
  }

  /** `reduce((sum, inc) => sum + inc, 0)` over an array of numbers. */
  const SumStep: Step := Sync((x: Value) => if x.Arr? then Returns(Num(SumOf(x.items))) else Throws(NotCallable))

  function NumArg(args: seq<Arg>): int
  {
    if |args| > 0 && args[0].Val? && args[0].v.Num? then args[0].v.n else 0
  }

  /** The currying functions `increment` and `waitAndIncrement`, as methodize registers them. */
  const Increment: Curry := Curried("increment", (args: seq<Arg>) => Inc(NumArg(args)))
  const WaitAndIncrement: Curry := Curried("waitAndIncrement", (args: seq<Arg>) => WaitInc(NumArg(args)))

  /** Two sync increments from 0 give 2. */
  lemma SyncComposed()
    ensures Run([Inc(1), Inc(1)], Num(0)) == Delivered(None, Num(2))
  {
    MarkerFreeIsFixed([Inc(1), Inc(1)]);
  }

  /** Two async increments from 0 give 2. */
  lemma AsyncComposed()
    ensures Run([WaitInc(1), WaitInc(1)], Num(0)) == Delivered(None, Num(2))
  {
    MarkerFreeIsFixed([WaitInc(1), WaitInc(1)]);
  }

  /** A sync and an async increment give 2 in either order. */
  lemma MixedComposed()
    ensures Run([Inc(1), WaitInc(1)], Num(0)) == Delivered(None, Num(2))
    ensures Run([WaitInc(1), Inc(1)], Num(0)) == Delivered(None, Num(2))
  {
    MarkerFreeIsFixed([Inc(1), WaitInc(1)]);
    MarkerFreeIsFixed([WaitInc(1), Inc(1)]);
  }

  /** A sync error before any async step leaves the run as an exception, not through the callback. */
  lemma SyncErrorThrows()
    ensures Run([IncErr, WaitInc(1)], Num(0)) == ThrowSync(NotDefined)
  {
    MarkerFreeIsFixed([IncErr, WaitInc(1)]);
  }

  /** An async error skips the rest of the steps and reaches the callback. */
  lemma AsyncErrorSkips()
    ensures Run([WaitIncErr, Inc(1)], Num(0)) == Delivered(Some(NotDefined), Undefined)
  {
    MarkerFreeIsFixed([WaitIncErr, Inc(1)]);
  }

  /** Resolution of a list holding one region and plain steps otherwise. */
  lemma ResolvedRegion(pre: seq<Step>, inner: seq<Step>, post: seq<Step>, tag: string, params: seq<Arg>, t: Transform)
    requires tag != ""
    requires NoMarkers(pre) && NoMarkers(inner) && NoMarkers(post)
    requires NoMissing(pre) && NoMissing(inner) && NoMissing(post) && NoMissing(Replace(t, inner, params))
    ensures Resolution(pre + [StartTag(tag, params, t)] + inner + [StopTag(tag)] + post)
         == Success(pre + Replace(t, inner, params) + post)
  {
    SingleRegion(pre, inner, post, tag, params, t);
  }

  /** A run of a list that resolves to `fs`: the steps of `fs`, from the start. */
  lemma RunResolved(staged: seq<Step>, fs: seq<Step>, x: Value)
    requires Resolution(staged) == Success(fs)
    ensures Run(staged, x) == Finish(Advance(fs, x, false))
  {
  }

  /** `parallel` over increments by `a` and by `b` of 0, then a sum: `a + b` (3 in the suite). */
  lemma ParallelThenSum(a: int, b: int)
    ensures Run([StartTag("Parallel", [], Parallel), WaitInc(a), WaitInc(b), StopTag("Parallel"), SumStep], Num(0))
         == Delivered(None, Num(a + b))
  {
    var inner := [WaitInc(a), WaitInc(b)];
    var step := ReplaceParallel(inner, [])[0];
    ParallelRegionResolves(WaitInc(a), WaitInc(b), SumStep);
    RunResolved([StartTag("Parallel", [], Parallel), WaitInc(a), WaitInc(b), StopTag("Parallel"), SumStep],
                [step, SumStep], Num(0));
    ParallelThenSumAdvances(a, b);
  }

  lemma ParallelThenSumAdvances(a: int, b: int)
    ensures Advance([ReplaceParallel([WaitInc(a), WaitInc(b)], [])[0], SumStep], Num(0), false) == Running(Num(a + b), true)
  {
    ParallelOfIncrements(a, b);
    ThenSum(ReplaceParallel([WaitInc(a), WaitInc(b)], [])[0], Num(0), [Num(a), Num(b)]);
    SumOfPair(a, b);
  }

  lemma SumOfPair(a: int, b: int)
    ensures SumOf([Num(a), Num(b)]) == a + b
  {
    assert [Num(a), Num(b)][1..] == [Num(b)];
    assert [Num(b)][1..] == [];
    assert SumOf([Num(b)]) == b + SumOf([]);
  }

  /** A step that makes an array, then the sum step: the sum of the array. */
  lemma ThenSum(step: Step, x: Value, items: seq<Value>)
    requires Advance([step], x, false) == Running(Arr(items), true)
    ensures Advance([step, SumStep], x, false) == Running(Num(SumOf(items)), true)
  {
    AdvanceAppend([step], [SumStep], x, false);
    assert [step] + [SumStep] == [step, SumStep];
    assert [SumStep][1..] == [];
    assert SumStep.call(Arr(items)) == Returns(Num(SumOf(items)));
    assert Advance([SumStep], Arr(items), true) == Advance([], Num(SumOf(items)), true);
  }

  /** A `parallel` region around two async steps, then one more step: the composite step, then that step. */
  lemma ParallelRegionResolves(f: Step, g: Step, h: Step)
    requires f.Async? && g.Async? && (h.Sync? || h.Async?)
    ensures Resolution([StartTag("Parallel", [], Parallel), f, g, StopTag("Parallel"), h])
         == Success([ReplaceParallel([f, g], [])[0], h])
  {
    var inner := [f, g];
    assert [StartTag("Parallel", [], Parallel), f, g, StopTag("Parallel"), h]
        == [] + [StartTag("Parallel", [], Parallel)] + inner + [StopTag("Parallel")] + [h];
    var replaced := ReplaceParallel(inner, []);
    ResolvedRegion([], inner, [h], "Parallel", [], Parallel);
    assert [] + replaced + [h] == [replaced[0], h];
  }

  lemma ParallelOfIncrements(a: int, b: int)
    ensures Advance([ReplaceParallel([WaitInc(a), WaitInc(b)], [])[0]], Num(0), false)
         == Running(Arr([Num(a), Num(b)]), true)
  {
    IncrementsAdd(a, 0);
    IncrementsAdd(b, 0);
    assert WaitInc(a).reply(Num(0)).value == Num(a) && WaitInc(b).reply(Num(0)).value == Num(b);
    TwoBranches(WaitInc(a), WaitInc(b), Num(0));
  }

  /** Two async branches that both succeed: their values, in order. */
  lemma TwoBranches(f: Step, g: Step, d: Value)
    requires f.Async? && g.Async? && f.reply(d).Ok? && g.reply(d).Ok?
    ensures Advance([ReplaceParallel([f, g], [])[0]], d, false) == Running(Arr([f.reply(d).value, g.reply(d).value]), true)
  {
    var inner := [f, g];
    ParallelResultsInOrder(inner, [], d, false);
    assert ReplaceParallel(inner, []) == [ReplaceParallel(inner, [])[0]];
    var items := seq(|inner|, i requires 0 <= i < |inner| => inner[i].reply(d).value);
    assert items == [f.reply(d).value, g.reply(d).value];
  }

  /** The selector `function pickSecond(){return 1}`. */
  function PickSecond(d: Value): Value
  {
    Num(1)
  }

  /** A `which` region around three plain steps resolves to the one composite step of `which`. */
  lemma WhichRegionResolves(f: Step, g: Step, h: Step)
    requires !Tagged(f) && !Tagged(g) && !Tagged(h) && !f.Missing? && !g.Missing? && !h.Missing?
    ensures Resolution([StartTag("Which", [Fn(PickSecond)], Which), f, g, h, StopTag("Which")])
         == Success(ReplaceWhich([f, g, h], [Fn(PickSecond)]))
  {
    var params := [Fn(PickSecond)];
    assert [StartTag("Which", params, Which), f, g, h, StopTag("Which")]
        == [] + [StartTag("Which", params, Which)] + [f, g, h] + [StopTag("Which")] + [];
    ResolvedRegion([], [f, g, h], [], "Which", params, Which);
    assert [] + ReplaceWhich([f, g, h], params) + [] == ReplaceWhich([f, g, h], params);
  }

  /** Through `which`, the run is the run of the second step alone. */
  lemma WhichRunsSecond(f: Step, g: Step, h: Step, x: Value)
    requires !Tagged(f) && !Tagged(g) && !Tagged(h) && !f.Missing? && !h.Missing?
    requires g.Sync? || g.Async?
    ensures Run([StartTag("Which", [Fn(PickSecond)], Which), f, g, h, StopTag("Which")], x)
         == Finish(Advance([g], x, true))
  {
    var params := [Fn(PickSecond)];
    WhichRegionResolves(f, g, h);
    assert Picked(LastParam(params), x, 3) == Some(1);
    WhichActsAsPicked([f, g, h], params, x, 1, false);
  }

  /** `which` picking index 1 among increments by `a`, `b` and `c`: only `b` is added (2 in the suite), for sync and async steps. */
  lemma WhichPicksSecond(a: int, b: int, c: int, x: int)
    ensures Run([StartTag("Which", [Fn(PickSecond)], Which), Inc(a), Inc(b), Inc(c), StopTag("Which")], Num(x))
         == Delivered(None, Num(x + b))
    ensures Run([StartTag("Which", [Fn(PickSecond)], Which), WaitInc(a), WaitInc(b), WaitInc(c), StopTag("Which")], Num(x))
         == Delivered(None, Num(x + b))
  {
    WhichRunsSecond(Inc(a), Inc(b), Inc(c), Num(x));
    WhichRunsSecond(WaitInc(a), WaitInc(b), WaitInc(c), Num(x));
    assert [Inc(b)][1..] == [] && [WaitInc(b)][1..] == [];
    IncrementsAdd(b, x);
  }

  /** The test `data => data < 1` of the suite's `maybe` regions. */
  function BelowOne(d: Value): Value
  {
    Bool(d.Num? && d.n < 1)
  }

  /** A `maybe` region around one plain step resolves to its guarded form. */
  lemma MaybeRegionResolves(f: Step)
    requires f.Sync? || f.Async?
    ensures Resolution([StartTag("Maybe", [Fn(BelowOne)], Maybe), f, StopTag("Maybe")])
         == Success(ReplaceMaybe([f], [Fn(BelowOne)]))
  {
    var params := [Fn(BelowOne)];
    assert [StartTag("Maybe", params, Maybe), f, StopTag("Maybe")]
        == [] + [StartTag("Maybe", params, Maybe)] + [f] + [StopTag("Maybe")] + [];
    ResolvedRegion([], [f], [], "Maybe", params, Maybe);
    assert [] + ReplaceMaybe([f], params) + [] == ReplaceMaybe([f], params);
  }

  /** `maybe(data < 1)` around a sync increment by 1: the increment runs only below 1 (from 1 and from 0 both give 1). */
  lemma MaybeAroundIncrement(n: int)
    ensures Run([StartTag("Maybe", [Fn(BelowOne)], Maybe), Inc(1), StopTag("Maybe")], Num(n))
         == Delivered(None, Num(if n < 1 then n + 1 else n))
  {
    MaybeRegionResolves(Inc(1));
    RunResolved([StartTag("Maybe", [Fn(BelowOne)], Maybe), Inc(1), StopTag("Maybe")],
                ReplaceMaybe([Inc(1)], [Fn(BelowOne)]), Num(n));
    GuardedIncrement(n);
  }

  lemma GuardedIncrement(n: int)
    ensures Advance(ReplaceMaybe([Inc(1)], [Fn(BelowOne)]), Num(n), false)
         == Running(Num(if n < 1 then n + 1 else n), false)
  {
    var params := [Fn(BelowOne)];
    assert Pures([Add(1)]) == [Inc(1)];
    MaybeTestsEachTurn([Add(1)], params, BelowOne, Num(n), false);
    assert [Add(1)][..0] == [];
    assert GuardedComposed([Add(1)], BelowOne, Num(n)) == Num(if n < 1 then n + 1 else n);
  }

  /** The same with an async increment. */
  lemma MaybeAroundWaitIncrement(n: int)
    ensures Run([StartTag("Maybe", [Fn(BelowOne)], Maybe), WaitInc(1), StopTag("Maybe")], Num(n))
         == Delivered(None, Num(if n < 1 then n + 1 else n))
  {
    MaybeRegionResolves(WaitInc(1));
    RunResolved([StartTag("Maybe", [Fn(BelowOne)], Maybe), WaitInc(1), StopTag("Maybe")],
                ReplaceMaybe([WaitInc(1)], [Fn(BelowOne)]), Num(n));
    GuardedWaitIncrement(n);
  }

  lemma GuardedWaitIncrement(n: int)
    ensures Advance(ReplaceMaybe([WaitInc(1)], [Fn(BelowOne)]), Num(n), false)
         == Running(Num(if n < 1 then n + 1 else n), true)
  {
    var params := [Fn(BelowOne)];
    var steps := ReplaceMaybe([WaitInc(1)], params);
    assert steps[0] == Guard(Some(Fn(BelowOne)), WaitInc(1));
    assert LastParam(params) == Some(Fn(BelowOne));
    assert Gate(Some(Fn(BelowOne)), Num(n)) == Some(n < 1);
    IncrementsAdd(1, n);
    assert steps[0].reply(Num(n)) == Ok(Num(if n < 1 then n + 1 else n));
    assert steps[1..] == [];
  }

  /** Running an increment by 1 `n` times from `x`. */
  lemma {:induction false} IncrementsRepeated(n: nat, x: int, r: bool)
    ensures RunTimes([Inc(1)], n, Num(x), r) == Running(Num(x + n), r)
  {
    if n > 0 {
      IncrementsRepeated(n - 1, x, r);
      assert [Inc(1)][1..] == [];
      assert Advance([Inc(1)], Num(x + n - 1), r) == Running(Num(x + n), r);
    }
  }

  /** `times(n)` around an increment by 1: `n` added (5 in the suite). */
  lemma TimesAroundIncrement(n: nat, x: int)
    ensures Run([StartTag("Times", [Val(Num(n))], Times), Inc(1), StopTag("Times")], Num(x))
         == Delivered(None, Num(x + n))
  {
    var params := [Val(Num(n))];
    assert [StartTag("Times", params, Times), Inc(1), StopTag("Times")]
        == [] + [StartTag("Times", params, Times)] + [Inc(1)] + [StopTag("Times")] + [];
    var steps := Repeat([Inc(1)], n);
    assert Limit(params) == Some(n) && Count(params) == n;
    assert Replace(Times, [Inc(1)], params) == steps;
    assert NoMissing(steps) by {
      forall i | 0 <= i < |steps| ensures !steps[i].Missing? {
        assert steps[i] == [Inc(1)][Offset(i, 1)];
      }
    }
    ResolvedRegion([], [Inc(1)], [], "Times", params, Times);
    assert [] + steps + [] == steps;
    TimesRepeatsRegion([Inc(1)], n, Num(x), false);
    IncrementsRepeated(n, x, false);
  }

  /** A stop marker of `times` with no start marker: "No begin tag", thrown. */
  lemma MissingStartTag()
    ensures Run([Inc(1), StopTag("Times")], Num(0)) == ThrowSync(NoBeginTag("Times"))
  {
    var fs := [Inc(1), StopTag("Times")];
    assert fs[..1] == [Inc(1)];
    UnmatchedStop(fs, 1);
  }

  /** A start marker of `times` left without its stop marker: "Tag not parsed out", thrown. */
  lemma LeftoverStartTag()
    ensures Run([StartTag("Times", [Val(Num(5))], Times), WaitInc(1)], Num(0)) == ThrowSync(TagNotParsedOut("Times"))
  {
    var fs := [StartTag("Times", [Val(Num(5))], Times), WaitInc(1)];
    assert fs[..0] == [];
    NoEndsUnchanged(fs);
    LeftoverStart(fs, fs, 0);
  }

  /**
   * A start marker is left over even when a region after it resolves: the
   * `maybe` region is rewritten, and the unclosed `times` is then reported.
   */
  lemma LeftoverAfterRegion()
    ensures Run([StartTag("Times", [Val(Num(5))], Times), StartTag("Maybe", [Fn(BelowOne)], Maybe), Inc(1), StopTag("Maybe")], Num(0))
         == ThrowSync(TagNotParsedOut("Times"))
  {
    var start := StartTag("Times", [Val(Num(5))], Times);
    var guarded := ReplaceMaybe([Inc(1)], [Fn(BelowOne)]);
    assert [start, StartTag("Maybe", [Fn(BelowOne)], Maybe), Inc(1), StopTag("Maybe")]
        == [start] + [StartTag("Maybe", [Fn(BelowOne)], Maybe)] + [Inc(1)] + [StopTag("Maybe")] + [];
    assert Replace(Maybe, [Inc(1)], [Fn(BelowOne)]) == guarded;
    InnermostFirst([start], [Inc(1)], [], "Maybe", [Fn(BelowOne)], Maybe);
    var rest := [start] + guarded + [];
    assert NoMissing(rest) && NoEnds(rest);
    assert rest[..0] == [];
    NoEndsUnchanged(rest);
    LeftoverStart(rest, rest, 0);
  }

  /** The test `sum => sum !== 5`. */
  function NotFive(d: Value): Value
  {
    Bool(d != Num(5))
  }

  /** The staged list of the suite's test of sibling and nested regions. */
  function Nested(): seq<Step>
  {
    [StartTag("Parallel", [], Parallel),
     StartTag("Times", [Val(Num(5))], Times), WaitInc(1), StopTag("Times"),
     StopTag("Parallel"),
     SumStep,
     StartTag("Maybe", [Fn(NotFive)], Maybe), Inc(1), StopTag("Maybe")]
  }

  /** The steps the nested list resolves to: one parallel step over five increments, the sum, the guarded increment. */
  function NestedResolved(): seq<Step>
  {
    [ReplaceParallel(Repeat([WaitInc(1)], 5), [])[0], SumStep] + ReplaceMaybe([Inc(1)], [Fn(NotFive)])
  }

  lemma FiveWaitIncrements()
    ensures |Repeat([WaitInc(1)], 5)| == 5
    ensures forall i :: 0 <= i < 5 ==> Repeat([WaitInc(1)], 5)[i] == WaitInc(1)
    ensures NoMarkers(Repeat([WaitInc(1)], 5)) && NoMissing(Repeat([WaitInc(1)], 5))
  {
    var w5 := Repeat([WaitInc(1)], 5);
    forall i | 0 <= i < 5 ensures w5[i] == WaitInc(1) {
      assert w5[i] == [WaitInc(1)][Offset(i, 1)];
    }
  }

  /** What follows the `parallel` region: the sum and the `maybe` region. */
  function AfterParallel(): seq<Step>
  {
    [SumStep, StartTag("Maybe", [Fn(NotFive)], Maybe), Inc(1), StopTag("Maybe")]
  }

  /** The first round rewrites the inner `times` region into five increments. */
  lemma NestedFirstRound()
    ensures Resolution(Nested())
         == Resolution([StartTag("Parallel", [], Parallel)] + Repeat([WaitInc(1)], 5) + [StopTag("Parallel")] + AfterParallel())
  {
    var post := [StopTag("Parallel")] + AfterParallel();
    FiveWaitIncrements();
    assert Count([Val(Num(5))]) == 5;
    assert Replace(Times, [WaitInc(1)], [Val(Num(5))]) == Repeat([WaitInc(1)], 5);
    assert Nested() == [StartTag("Parallel", [], Parallel)] + [StartTag("Times", [Val(Num(5))], Times)] + [WaitInc(1)]
                       + [StopTag("Times")] + post;
    InnermostFirst([StartTag("Parallel", [], Parallel)], [WaitInc(1)], post, "Times", [Val(Num(5))], Times);
    assert [StartTag("Parallel", [], Parallel)] + Repeat([WaitInc(1)], 5) + post
        == [StartTag("Parallel", [], Parallel)] + Repeat([WaitInc(1)], 5) + [StopTag("Parallel")] + AfterParallel();
  }

  /** The second round rewrites the `parallel` region, now marker-free, into its single step. */
  lemma NestedSecondRound()
    ensures Resolution([StartTag("Parallel", [], Parallel)] + Repeat([WaitInc(1)], 5) + [StopTag("Parallel")] + AfterParallel())
         == Resolution([ReplaceParallel(Repeat([WaitInc(1)], 5), [])[0]] + AfterParallel())
  {
    FiveWaitIncrements();
    assert NoMissing(AfterParallel()) by {
      assert forall k :: 0 <= k < 4 ==> AfterParallel()[k] != Missing;
    }
    ParallelRound(Repeat([WaitInc(1)], 5), AfterParallel());
  }

  /** A leading `parallel` region with no marker inside it becomes its one composite step. */
  lemma ParallelRound(inner: seq<Step>, post: seq<Step>)
    requires NoMarkers(inner) && NoMissing(inner) && NoMissing(post)
    ensures Resolution([StartTag("Parallel", [], Parallel)] + inner + [StopTag("Parallel")] + post)
         == Resolution([ReplaceParallel(inner, [])[0]] + post)
  {
    var staged := [StartTag("Parallel", [], Parallel)] + inner + [StopTag("Parallel")] + post;
    var replaced := ReplaceParallel(inner, []);
    assert Replace(Parallel, inner, []) == replaced;
    assert NoMissing(replaced) by {
      assert |replaced| == 1 && replaced[0].Async?;
    }
    assert staged == [] + [StartTag("Parallel", [], Parallel)] + inner + [StopTag("Parallel")] + post;
    InnermostFirst([], inner, post, "Parallel", [], Parallel);
    assert Resolution(staged) == Resolution([] + replaced + post);
    assert [] + replaced + post == [replaced[0]] + post;
  }

  /** The last round resolves the sibling `maybe` region. */
  lemma NestedLastRound()
    ensures Resolution([ReplaceParallel(Repeat([WaitInc(1)], 5), [])[0]] + AfterParallel()) == Success(NestedResolved())
  {
    var p5 := ReplaceParallel(Repeat([WaitInc(1)], 5), [])[0];
    var mparams := [Fn(NotFive)];
    assert [p5] + AfterParallel() == [p5, SumStep] + [StartTag("Maybe", mparams, Maybe)] + [Inc(1)] + [StopTag("Maybe")] + [];
    SingleRegion([p5, SumStep], [Inc(1)], [], "Maybe", mparams, Maybe);
    assert [p5, SumStep] + ReplaceMaybe([Inc(1)], mparams) + [] == NestedResolved();
  }

  /** Resolution works from the inner `times` region out, then resolves the sibling `maybe` region. */
  lemma NestedResolves()
    ensures Resolution(Nested()) == Success(NestedResolved())
  {
    NestedFirstRound();
    NestedSecondRound();
    NestedLastRound();
  }

  lemma {:induction false} SumOfOnes(items: seq<Value>)
    requires forall i :: 0 <= i < |items| ==> items[i] == Num(1)
    ensures SumOf(items) == |items|
  {
    if items != [] {
      SumOfOnes(items[1..]);
    }
  }

  /** Five parallel increments of 0 make five ones, which sum to 5. */
  lemma FiveParallelSum()
    ensures Advance([ReplaceParallel(Repeat([WaitInc(1)], 5), [])[0], SumStep], Num(0), false) == Running(Num(5), true)
  {
    var w5 := Repeat([WaitInc(1)], 5);
    var p5 := ReplaceParallel(w5, [])[0];
    FiveWaitIncrements();
    IncrementsAdd(1, 0);
    var items := seq(|w5|, i requires 0 <= i < |w5| => w5[i].reply(Num(0)).value);
    ParallelResultsInOrder(w5, [], Num(0), false);
    assert ReplaceParallel(w5, []) == [p5];
    forall i | 0 <= i < |items| ensures items[i] == Num(1) {
      assert w5[i] == WaitInc(1);
    }
    SumOfOnes(items);
    ThenSum(p5, Num(0), items);
  }

  /** The sum 5 fails the test `sum !== 5`, so the guarded increment leaves it. */
  lemma FiveNotIncremented()
    ensures Advance(ReplaceMaybe([Inc(1)], [Fn(NotFive)]), Num(5), true) == Running(Num(5), true)
  {
    assert Pures([Add(1)]) == [Inc(1)];
    MaybeTestsEachTurn([Add(1)], [Fn(NotFive)], NotFive, Num(5), true);
    assert [Add(1)][..0] == [];
    assert GuardedComposed([Add(1)], NotFive, Num(5)) == Num(5);
  }

  /** The resolved nested list, run from 0: the parallel sum 5, which the `maybe` test then lets through unchanged. */
  lemma NestedRuns()
    ensures Advance(NestedResolved(), Num(0), false) == Running(Num(5), true)
  {
    var p5 := ReplaceParallel(Repeat([WaitInc(1)], 5), [])[0];
    FiveParallelSum();
    AdvanceAppend([p5, SumStep], ReplaceMaybe([Inc(1)], [Fn(NotFive)]), Num(0), false);
    FiveNotIncremented();
  }

  /** Regions can be siblings and children: the suite's nested list gives 5. */
  lemma SiblingsAndChildren()
    ensures Run(Nested(), Num(0)) == Delivered(None, Num(5))
  {
    NestedResolves();
    RunResolved(Nested(), NestedResolved(), Num(0));
    NestedRuns();
  }

  function Mul(y: int): Value -> Value
  {
    (x: Value) => if x.Num? then Num(x.n * y) else Undefined
  }

  /** Functions staged directly with `c`: `+10` then `*10` of 0 gives 100. */
  lemma DirectlyComposed()
    ensures Run([Pure(Add(10)), Pure(Mul(10))], Num(0)) == Delivered(None, Num(100))
  {
    assert Pures([Add(10), Mul(10)]) == [Pure(Add(10)), Pure(Mul(10))];
    SyncRunComposes([Add(10), Mul(10)], Num(0));
    assert [Add(10), Mul(10)][..1] == [Add(10)];
    assert [Add(10)][..0] == [];
  }

  lemma OneIncrement(y: int, x: int)
    ensures Run([Inc(y)], Num(x)) == Delivered(None, Num(x + y))
  {
    assert Pures([Add(y)]) == [Inc(y)];
    SyncRunComposes([Add(y)], Num(x));
    assert [Add(y)][..0] == [];
  }

  lemma TwoIncrements(y: int, z: int, x: int)
    ensures Run([Inc(y)] + [Inc(z)], Num(x)) == Delivered(None, Num(x + y + z))
  {
    assert [Inc(y)] + [Inc(z)] == [Inc(y), Inc(z)];
    assert Pures([Add(y), Add(z)]) == [Inc(y), Inc(z)];
    SyncRunComposes([Add(y), Add(z)], Num(x));
    assert [Add(y), Add(z)][..1] == [Add(y)];
    assert [Add(y)][..0] == [];
    assert Composed([Add(y)], Num(x)) == Num(x + y);
  }

  /** Every built-in tag method's name begins with an `s`. */
  lemma BuiltinNamesStartWithS()
    ensures forall i :: 0 <= i < |BuiltinTagFs()| ==> |MethodName(BuiltinTagFs()[i])| > 0 && MethodName(BuiltinTagFs()[i])[0] == 's'
  {
  }

  lemma BuiltinsLack(name: string)
    requires |name| > 0 && name[0] != 's'
    ensures forall i :: 0 <= i < |BuiltinTagFs()| ==> MethodName(BuiltinTagFs()[i]) != name
  {
    BuiltinNamesStartWithS();
  }

  /** A name the built-in tag methods do not have reaches what the rest of the registry gives it. */
  lemma PastBuiltins(rest: seq<Curry>, name: string)
    requires |name| > 0 && name[0] != 's'
    ensures Lookup(BuiltinTagFs() + rest, name) == Lookup(rest, name)
  {
    BuiltinNamesStartWithS();
    LookupSkipsOthers(BuiltinTagFs(), rest, name);
  }

  lemma IncrementRegistered(rest: seq<Curry>)
    ensures Lookup(BuiltinTagFs() + rest + [Increment], "increment") == Some(Increment)
  {
    assert Lookup([Increment], "increment") == Some(Increment);
    LookupLastWins(BuiltinTagFs() + rest, [Increment], "increment");
  }

  /** What the methods `increment(n)` and `waitAndIncrement(n)` stage. */
  lemma IncrementMakes(n: int)
    ensures Instantiate(Increment, [Val(Num(n))]) == Inc(n)
    ensures Instantiate(WaitAndIncrement, [Val(Num(n))]) == WaitInc(n)
  {
    assert NumArg([Val(Num(n))]) == n;
  }

  /** In a clone of a pipe with `increment`, the name still reaches it. */
  lemma CloneRegistry(builtins: seq<Curry>)
    requires forall i :: 0 <= i < |builtins| ==> MethodName(builtins[i]) != "increment"
    ensures Lookup(builtins + [Increment] + builtins, "increment") == Some(Increment)
  {
    LookupPastLater(builtins + [Increment], builtins, "increment");
    assert (builtins + [Increment])[|builtins|] == Increment;
  }

  /** In a pipe with `waitAndIncrement` then `increment` registered, both names reach their functions. */
  lemma TwoRegistered()
    ensures Lookup(BuiltinTagFs() + [WaitAndIncrement] + [Increment], "increment") == Some(Increment)
    ensures Lookup(BuiltinTagFs() + [WaitAndIncrement] + [Increment], "waitAndIncrement") == Some(WaitAndIncrement)
  {
    IncrementRegistered([WaitAndIncrement]);
    assert BuiltinTagFs() + [WaitAndIncrement] + [Increment] == BuiltinTagFs() + [WaitAndIncrement, Increment];
    PastBuiltins([WaitAndIncrement, Increment], "waitAndIncrement");
    assert [WaitAndIncrement, Increment][..1] == [WaitAndIncrement];
  }

  /** A pipe with `increment` registered, fresh from makePipe. */
  method IncrementPipe() returns (pipe: Pipe)
    ensures fresh(pipe)
    ensures pipe.curryFs == BuiltinTagFs() + [Increment] && pipe.composeFs == [] && pipe.input == Null
  {
    pipe := new Pipe([], []);
    pipe.Methodize([Increment]);
    assert [] + BuiltinTagFs() == BuiltinTagFs();
  }

  /** An unknown method name throws "Method not added to pipe". */
  method UnrecognizedMethod() returns (err: Option<Error>)
    ensures err == Some(MethodNotAdded("foo"))
  {
    var pipe := new Pipe([], []);
    assert pipe.curryFs == BuiltinTagFs() + [];
    PastBuiltins([], "foo");
    err := pipe.Invoke("foo", []);
  }

  /** `.in(0).increment(n).out(...)` on a pipe where `increment` is registered. */
  method IncrementAndRun(pipe: Pipe, n: int) returns (out: Outcome)
    requires Lookup(pipe.curryFs, "increment") == Some(Increment)
    modifies pipe
    ensures pipe.composeFs == old(pipe.composeFs) + [Inc(n)] && pipe.curryFs == old(pipe.curryFs)
    ensures out == Run(old(pipe.composeFs) + [Inc(n)], Num(0))
  {
    pipe.In(Num(0));
    IncrementMakes(n);
    var _ := pipe.Invoke("increment", [Val(Num(n))]);
    out := pipe.Out();
  }

  /** `.in(0).increment(n).out(...)` on a pipe where only `increment(shared)` is staged: `shared + n`. */
  method IncrementAgainAndRun(pipe: Pipe, shared: int, n: int) returns (out: Outcome)
    requires Lookup(pipe.curryFs, "increment") == Some(Increment) && pipe.composeFs == [Inc(shared)]
    modifies pipe
    ensures pipe.composeFs == [Inc(shared), Inc(n)] && pipe.curryFs == old(pipe.curryFs)
    ensures out == Delivered(None, Num(shared + n))
  {
    TwoIncrements(shared, n, 0);
    out := IncrementAndRun(pipe, n);
  }

  /** A fresh pipe with `increment` registered, whose name reaches it. */
  method RegisteredIncrementPipe() returns (pipe: Pipe)
    ensures fresh(pipe)
    ensures pipe.curryFs == BuiltinTagFs() + [Increment] && pipe.composeFs == []
    ensures Lookup(pipe.curryFs, "increment") == Some(Increment)
  {
    pipe := IncrementPipe();
    IncrementRegistered([]);
    assert BuiltinTagFs() + [] + [Increment] == pipe.curryFs;
  }

  /** The staged list stays after `out`: a second `increment(n)` and run from 0 gives `2n` (2 in the suite). */
  method PersistAfterOut(n: int) returns (first: Outcome, second: Outcome)
    ensures first == Delivered(None, Num(n)) && second == Delivered(None, Num(n + n))
  {
    var pipe := RegisteredIncrementPipe();
    first := IncrementAndRun(pipe, n);
    assert [] + [Inc(n)] == [Inc(n)];
    OneIncrement(n, 0);
    second := IncrementAgainAndRun(pipe, n, n);
  }

  /** After `clear` only the steps staged since count: `n` again (1 in the suite). */
  method ClearedAfterOut(n: int) returns (first: Outcome, second: Outcome)
    ensures first == Delivered(None, Num(n)) && second == Delivered(None, Num(n))
  {
    var pipe := RegisteredIncrementPipe();
    first := IncrementAndRun(pipe, n);
    assert [] + [Inc(n)] == [Inc(n)];
    OneIncrement(n, 0);
    pipe.Clear();
    second := IncrementAndRun(pipe, n);
  }

  /** A pipe with `increment(shared)` staged, and a clone of it. */
  method ClonedPipe(shared: int) returns (pipe: Pipe, clone: Pipe)
    ensures fresh(pipe) && fresh(clone) && pipe != clone
    ensures Lookup(pipe.curryFs, "increment") == Some(Increment) && pipe.composeFs == [Inc(shared)]
    ensures Lookup(clone.curryFs, "increment") == Some(Increment) && clone.composeFs == [Inc(shared)]
  {
    pipe := RegisteredIncrementPipe();
    IncrementMakes(shared);
    var _ := pipe.Invoke("increment", [Val(Num(shared))]);
    clone := pipe.Clone();
    BuiltinsLack("increment");
    CloneRegistry(BuiltinTagFs());
    assert clone.curryFs == BuiltinTagFs() + [Increment] + BuiltinTagFs();
  }

  /**
   * A clone gets the methods and the staged steps of its original, and
   * after that neither sees what is staged on the other (11 and 101 in the
   * suite).
   */
  method CloneIsIndependent(shared: int, a: int, b: int) returns (fromClone: Outcome, fromOriginal: Outcome)
    ensures fromClone == Delivered(None, Num(shared + a)) && fromOriginal == Delivered(None, Num(shared + b))
  {
    var pipe, clone := ClonedPipe(shared);
    fromClone := IncrementAgainAndRun(clone, shared, a);
    fromOriginal := IncrementAgainAndRun(pipe, shared, b);
  }

  /** A pipe with `waitAndIncrement` and `increment` registered, `waitAndIncrement(n)` staged. */
  method WaitIncrementPipe(n: int) returns (pipe: Pipe)
    ensures fresh(pipe)
    ensures Lookup(pipe.curryFs, "increment") == Some(Increment) && pipe.composeFs == [WaitInc(n)]
  {
    pipe := new Pipe([], []);
    pipe.Methodize([WaitAndIncrement, Increment]);
    assert pipe.curryFs == BuiltinTagFs() + [WaitAndIncrement] + [Increment];
    TwoRegistered();
    IncrementMakes(n);
    var _ := pipe.Invoke("waitAndIncrement", [Val(Num(n))]);
  }

  /** `out` runs the list as it is when called: a step staged after it changes nothing. */
  method StagedAfterOut(n: int, later: int) returns (out: Outcome)
    ensures out == Delivered(None, Num(n))
  {
    var pipe := WaitIncrementPipe(n);
    pipe.In(Num(0));
    OneWaitIncrement(n, 0);
    out := pipe.Out();
    var _ := pipe.Invoke("increment", [Val(Num(later))]);
  }

  lemma OneWaitIncrement(y: int, x: int)
    ensures Run([WaitInc(y)], Num(x)) == Delivered(None, Num(x + y))
  {
    MarkerFreeIsFixed([WaitInc(y)]);
    assert Resolution([WaitInc(y)]) == Success([WaitInc(y)]);
    assert [WaitInc(y)][1..] == [];
    IncrementsAdd(y, x);
    assert Advance([WaitInc(y)], Num(x), false) == Running(Num(x + y), true);
  }

  /** `tagize({times})` makes `startTimes` and `stopTimes`. */
  lemma TimesTagMade()
    ensures MakeTagFs([("times", Times)]) == Success([StartMethod("Times", Times), StopMethod("Times")])
  {
    assert Capitalized("times") == Success("Times") by {
      assert Lower("times") == "times";
      assert UpperChar('t') == 'T';
      assert "times"[1..] == "imes";
      assert ['T'] + "imes" == "Times";
    }
    MakeTagFsCons("times", Times, [], "Times", []);
    assert [("times", Times)] + [] == [("times", Times)];
    assert [StartMethod("Times", Times), StopMethod("Times")] + [] == [StartMethod("Times", Times), StopMethod("Times")];
  }

  /** The registry of a pipe with `increment` and then the `times` tag. */
  function TaggedRegistryFs(): seq<Curry>
  {
    BuiltinTagFs() + [Increment] + [StartMethod("Times", Times), StopMethod("Times")]
  }

  /** In a pipe with `increment` then the `times` tag registered, the three names reach their methods. */
  lemma TaggedRegistry()
    ensures Lookup(TaggedRegistryFs(), "stopTimes") == Some(StopMethod("Times"))
    ensures Lookup(TaggedRegistryFs(), "startTimes") == Some(StartMethod("Times", Times))
    ensures Lookup(TaggedRegistryFs(), "increment") == Some(Increment)
  {
    var fs := TaggedRegistryFs();
    var n := |BuiltinTagFs()|;
    assert fs[n] == Increment && fs[n + 1] == StartMethod("Times", Times) && fs[n + 2] == StopMethod("Times");
    assert |fs| == n + 3;
    LookupIsLast(fs, "stopTimes", n + 2);
    LookupIsLast(fs, "startTimes", n + 1);
    LookupIsLast(fs, "increment", n);
  }

  /** A fresh pipe with `increment` registered, then the `times` tag added with `tagize`. */
  method TimesTaggedPipe() returns (pipe: Pipe)
    ensures fresh(pipe)
    ensures pipe.curryFs == TaggedRegistryFs()
    ensures pipe.composeFs == [] && pipe.input == Null
  {
    pipe := IncrementPipe();
    TimesTagMade();
    var _ := pipe.Tagize([("times", Times)]);
  }

  /** `startTimes(k)` then `increment(1)` on a pipe with that registry and nothing staged. */
  method StartTimesAndIncrement(pipe: Pipe, k: int)
    requires pipe.curryFs == TaggedRegistryFs() && pipe.composeFs == []
    modifies pipe
    ensures pipe.curryFs == old(pipe.curryFs)
    ensures pipe.composeFs == [StartTag("Times", [Val(Num(k))], Times), Inc(1)]
  {
    TaggedRegistry();
    IncrementMakes(1);
    assert Instantiate(StartMethod("Times", Times), [Val(Num(k))]) == StartTag("Times", [Val(Num(k))], Times);
    var _ := pipe.Invoke("startTimes", [Val(Num(k))]);
    assert pipe.composeFs == [StartTag("Times", [Val(Num(k))], Times)];
    var _ := pipe.Invoke("increment", [Val(Num(1))]);
  }

  /** A pipe with `increment` and the `times` tag registered, and `times(k)` around `increment(1)` staged. */
  method TimesPipe(k: int) returns (pipe: Pipe)
    ensures fresh(pipe)
    ensures pipe.composeFs == [StartTag("Times", [Val(Num(k))], Times), Inc(1), StopTag("Times")]
  {
    pipe := TimesTaggedPipe();
    StartTimesAndIncrement(pipe, k);
    TaggedRegistry();
    assert Instantiate(StopMethod("Times"), []) == StopTag("Times");
    var _ := pipe.Invoke("stopTimes", []);
  }

  /** Tags added with `tagize` work like the built-in ones: `times(k)` around an increment from 0 gives `k` (5 in the suite). */
  method TagsAdded(k: nat) returns (out: Outcome)
    ensures out == Delivered(None, Num(k))
  {
    var pipe := TimesPipe(k);
    pipe.In(Num(0));
    TimesAroundIncrement(k, 0);
    out := pipe.Out();
  }

  /** No built-in tag method is called `startTimes`. */
  lemma BuiltinsLackStartTimes()
    ensures forall i :: 0 <= i < |BuiltinTagFs()| ==> MethodName(BuiltinTagFs()[i]) != "startTimes"
  {
    assert "startMaybe"[5] != "startTimes"[5];
    assert "startParallel"[5] != "startTimes"[5];
    assert "startWhich"[5] != "startTimes"[5];
    assert |"stopMaybe"| != |"startTimes"|;
    assert |"stopParallel"| != |"startTimes"|;
    assert |"stopWhich"| != |"startTimes"|;
  }

  /** A clone of a pipe that has the `times` tag offers `startTimes` too, for all that it registers the built-in tags again. */
  method ClonedTagPipe() returns (clone: Pipe)
    ensures fresh(clone)
    ensures Lookup(clone.curryFs, "startTimes") == Some(StartMethod("Times", Times))
  {
    var pipe := TimesTaggedPipe();
    clone := pipe.Clone();
    TaggedRegistry();
    BuiltinsLackStartTimes();
    LookupPastLater(TaggedRegistryFs(), BuiltinTagFs(), "startTimes");
  }
}
