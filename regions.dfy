/**
 * What the built-in regions do to a run: `maybe` tests the value at each
 * guarded step's own turn, `which` behaves as the one step it picks, and
 * `parallel` calls back with its branches' results in declaration order.
 */
module Regions {
  import opened Wrappers
  import opened Values
  import opened Steps
  import opened Transforms
  import opened Scheduler

  /**
   * Reference semantics of a `maybe` region over functions: before each
   * one, the test is applied to the value current at that point, and the
   * function runs only if the test is truthy.
   */
  function GuardedComposed(fs: seq<Value -> Value>, test: Value -> Value, x: Value): Value
  {
    if fs == [] then x
    else
      var v := GuardedComposed(fs[..|fs| - 1], test, x);
      if Truthy(test(v)) then fs[|fs| - 1](v) else v
  }

  /**
   * A `maybe` region over synchronous steps runs as the guarded
   * composition: every step tests the value current at its own turn.
   */
  lemma {:induction false} MaybeTestsEachTurn(fs: seq<Value -> Value>, params: seq<Arg>, test: Value -> Value, x: Value, r: bool)
    requires |params| > 0 && params[|params| - 1] == Fn(test)
    ensures Advance(ReplaceMaybe(Pures(fs), params), x, r) == Running(GuardedComposed(fs, test, x), r)
  {
    if fs != [] {
      var n := |fs| - 1;
      var steps := ReplaceMaybe(Pures(fs), params);
      var last := steps[n];
      assert steps == ReplaceMaybe(Pures(fs[..n]), params) + [last];
      AdvanceAppend(ReplaceMaybe(Pures(fs[..n]), params), [last], x, r);
      MaybeTestsEachTurn(fs[..n], params, test, x, r);
      var v := GuardedComposed(fs[..n], test, x);
      assert LastParam(params) == Some(Fn(test));
      assert last == Guard(Some(Fn(test)), Pure(fs[n]));
      assert Gate(Some(Fn(test)), v) == Some(Truthy(test(v)));
      assert last.call(v) == if Truthy(test(v)) then Returns(fs[n](v)) else Returns(v);
      assert [last][1..] == [];
      assert Advance([last], v, r) == Running(GuardedComposed(fs, test, x), r);
    }
  }

  /**
   * One guarded step: when the test is truthy it runs as the step itself;
   * otherwise the value passes through unchanged, by a plain return for a
   * synchronous step and by the callback (so the run resumes) for an
   * asynchronous one.
   */
  lemma GuardedStep(test: Value -> Value, f: Step, d: Value, r: bool)
    requires f.Sync? || f.Async?
    ensures Advance([Guard(Some(Fn(test)), f)], d, r)
         == if Truthy(test(d)) then Advance([f], d, r) else Running(d, r || f.Async?)
  {
    var g := Guard(Some(Fn(test)), f);
    assert Gate(Some(Fn(test)), d) == Some(Truthy(test(d)));
    assert [g][1..] == [] && [f][1..] == [];
    if f.Sync? {
      assert g.call(d) == if Truthy(test(d)) then f.call(d) else Returns(d);
    } else {
      assert g.reply(d) == if Truthy(test(d)) then f.reply(d) else Ok(d);
    }
  }

  /**
   * A `maybe` region whose last param is not a function fails at its first
   * step, when `test(data)` is called: a synchronous step throws (out of
   * `exec` before any resume, to the callback after one), an asynchronous
   * step's promise rejects, and any other entry was mapped to `undefined`.
   */
  lemma MaybeWithoutTest(fs: seq<Step>, params: seq<Arg>, x: Value, r: bool)
    requires params == [] || params[|params| - 1].Val?
    requires |fs| > 0
    ensures Advance(ReplaceMaybe(fs, params), x, r)
         == Stopped(if fs[0].Async? then Delivered(Some(NotCallable), Undefined) else Escape(NotCallable, r))
  {
    var step := ReplaceMaybe(fs, params)[0];
    assert step == Guard(LastParam(params), fs[0]);
    assert Gate(LastParam(params), x) == None;
    if fs[0].Sync? {
      assert step.call(x) == Throws(NotCallable);
    } else if fs[0].Async? {
      assert step.reply(x) == Err(NotCallable);
    } else {
      assert step == Missing;
    }
  }

  /**
   * A `which` region behaves exactly as the one step its selector picks,
   * run as an asynchronous step: its value or its error reaches the run,
   * and the other inner steps play no part.
   */
  lemma WhichActsAsPicked(fs: seq<Step>, params: seq<Arg>, d: Value, k: nat, r: bool)
    requires Picked(LastParam(params), d, |fs|) == Some(k)
    requires fs[k].Sync? || fs[k].Async?
    ensures Advance(ReplaceWhich(fs, params), d, r) == Advance([fs[k]], d, true)
  {
    var step := ReplaceWhich(fs, params)[0];
    assert step.reply(d) == PickedReply(fs[k], d);
    assert ReplaceWhich(fs, params)[1..] == [] && [fs[k]][1..] == [];
  }

  /** A selector that picks no position of the region makes the `which` step fail with a TypeError. */
  lemma WhichOutOfRange(fs: seq<Step>, params: seq<Arg>, d: Value, r: bool)
    requires Picked(LastParam(params), d, |fs|) == None
    ensures Advance(ReplaceWhich(fs, params), d, r) == Stopped(Delivered(Some(NotCallable), Undefined))
  {
    var step := ReplaceWhich(fs, params)[0];
    assert step.reply(d) == Err(NotCallable);
  }
  /**
   * A picked entry that is neither a one- nor a two-parameter function
   * (a marker, a function of another arity, a non-function) is never
   * called, so the callback of the `which` step never fires.
   */
  lemma WhichPicksNonFunction(fs: seq<Step>, params: seq<Arg>, d: Value, k: nat, r: bool)
    requires Picked(LastParam(params), d, |fs|) == Some(k)
    requires !fs[k].Sync? && !fs[k].Async? && !fs[k].Missing?
    ensures Advance(ReplaceWhich(fs, params), d, r) == Stopped(NeverDelivered)
  {
    assert ReplaceWhich(fs, params)[0].reply(d) == Silent;
  }


  /**
   * A `parallel` region whose branches all call back with a value resumes
   * the run with the list of those values, in declaration order.
   */
  lemma ParallelResultsInOrder(fs: seq<Step>, params: seq<Arg>, d: Value, r: bool)
    requires forall i :: 0 <= i < |fs| ==> BranchReply(fs[i], d).Ok?
    ensures Advance(ReplaceParallel(fs, params), d, r)
         == Running(Arr(seq(|fs|, i requires 0 <= i < |fs| => BranchReply(fs[i], d).value)), true)
  {
    var rs := Branches(fs, d);
    var all := All(rs);
    assert ReplaceParallel(fs, params)[0].reply(d) == all;
    assert all.value.items == seq(|fs|, i requires 0 <= i < |fs| => BranchReply(fs[i], d).value);
    assert ReplaceParallel(fs, params)[1..] == [];
  }

  /**
   * A `parallel` region with a failing branch fails the run with the error
   * of the first failing branch in declaration order.
   */
  lemma ParallelFirstFailureWins(fs: seq<Step>, params: seq<Arg>, d: Value, r: bool, k: nat)
    requires k < |fs| && BranchReply(fs[k], d).Err?
    requires forall i :: 0 <= i < k ==> !BranchReply(fs[i], d).Err?
    ensures Advance(ReplaceParallel(fs, params), d, r)
         == Stopped(Delivered(Some(BranchReply(fs[k], d).error), Undefined))
  {
    var rs := Branches(fs, d);
    var all := All(rs);
    assert ReplaceParallel(fs, params)[0].reply(d) == all;
    assert rs[k].Err?;
    var i :| 0 <= i < |rs| && rs[i] == all && forall m :: 0 <= m < i ==> !rs[m].Err?;
    assert i == k;
  }
  /**
   * A branch that never settles (a one-parameter step that returns, say)
   * keeps `Promise.all` pending unless some branch fails: the run never
   * reaches the callback.
   */
  lemma ParallelNeverSettles(fs: seq<Step>, params: seq<Arg>, d: Value, r: bool, k: nat)
    requires k < |fs| && BranchReply(fs[k], d).Silent?
    requires forall i :: 0 <= i < |fs| ==> !BranchReply(fs[i], d).Err?
    ensures Advance(ReplaceParallel(fs, params), d, r) == Stopped(NeverDelivered)
  {
    var rs := Branches(fs, d);
    assert !rs[k].Ok?;
    assert All(rs).Silent?;
    assert ReplaceParallel(fs, params)[0].reply(d) == All(rs);
  }


  /** Reference semantics of `times`: the region run `n` times in a row, each run picking up where the last stopped. */
  function RunTimes(fs: seq<Step>, n: int, x: Value, r: bool): Progress
  {
    if n <= 0 then Running(x, r) else Then(RunTimes(fs, n - 1, x, r), fs)
  }

  /** A `times` region runs its inner steps `params[0]` times over, in sequence. */
  lemma {:induction false} TimesRepeatsRegion(fs: seq<Step>, n: int, x: Value, r: bool)
    ensures Advance(Repeat(fs, n), x, r) == RunTimes(fs, n, x, r)
  {
    if n > 0 {
      assert Repeat(fs, n) == Repeat(fs, n - 1) + fs;
      AdvanceAppend(Repeat(fs, n - 1), fs, x, r);
      TimesRepeatsRegion(fs, n - 1, x, r);
    }
  }
}
