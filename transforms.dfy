/**
 * The replace functions of the built-in tags `maybe`, `which` and
 * `parallel`, and of the user tag `times`: each takes the steps found
 * between a start and a stop marker, and the start marker's params, and
 * returns the steps that take the region's place.
 */
module Transforms {
  import opened Wrappers
  import opened Values
  import opened Steps

  /**
   * The outcome of `test(data)` for the last param: None when that param is
   * absent or not a function (calling it throws a TypeError), else whether
   * the test's result is truthy.
   */
  function Gate(test: Option<Arg>, d: Value): Option<bool>
  {
    if test.Some? && test.value.Fn? then Some(Truthy(test.value.f(d))) else None
  }

  /** One step of a `maybe` region, wrapped so that it runs only when the test passes. */
  function Guard(test: Option<Arg>, f: Step): Step
  {
    match f
    case Sync(call) =>
      Sync((d: Value) =>
             match Gate(test, d)
             case None => Throws(NotCallable)
             case Some(pass) => if pass then call(d) else Returns(d))
    case Async(reply) =>
      Async((d: Value) =>
              match Gate(test, d)
              case None => Err(NotCallable)
              case Some(pass) => if pass then reply(d) else Ok(d))
    case _ => Missing  // a function of any other arity maps to undefined
  }

  /**
   * `maybe`: every inner step is wrapped on its own, so the test is
   * evaluated at that step's turn, against the value current then.
   */
  function ReplaceMaybe(fs: seq<Step>, params: seq<Arg>): (r: seq<Step>)
    ensures |r| == |fs|
    ensures forall i :: 0 <= i < |fs| ==> (r[i].Sync? <==> fs[i].Sync?)
    ensures forall i :: 0 <= i < |fs| ==> (r[i].Async? <==> fs[i].Async?)
    ensures forall i :: 0 <= i < |fs| ==> (r[i].Missing? <==> !fs[i].Sync? && !fs[i].Async?)
  {
    seq(|fs|, i requires 0 <= i < |fs| => Guard(LastParam(params), fs[i]))
  }

  /**
   * What the composite step of `which` calls back with once it has picked
   * `f` for the value `d`: a sync pick's result or exception, an async
   * pick's own reply, a TypeError for a picked undefined, and no callback
   * at all for a function of any other arity.
   */
  function PickedReply(f: Step, d: Value): Reply
  {
    match f
    case Sync(call) => (match call(d) case Returns(v) => Ok(v) case Throws(e) => Err(e))
    case Async(reply) => reply(d)
    case Missing => Err(NotCallable)
    case _ => Silent
  }

  /** The index `pick(d)` selects, when it is one of the region's positions. */
  function Picked(pick: Option<Arg>, d: Value, n: nat): Option<nat>
  {
    if pick.Some? && pick.value.Fn? then
      var k := pick.value.f(d);
      if k.Num? && 0 <= k.n < n then Some(k.n) else None
    else None
  }

  function WhichReply(fs: seq<Step>, pick: Option<Arg>, d: Value): Reply
  {
    match Picked(pick, d, |fs|)
    case Some(k) => PickedReply(fs[k], d)
    case None => Err(NotCallable)  // no selector, or fs[pick(d)] is undefined
  }

  /** `which`: one async step that runs only the inner step the selector picks. */
  function ReplaceWhich(fs: seq<Step>, params: seq<Arg>): (r: seq<Step>)
    ensures |r| == 1 && r[0].Async?
  {
    [Async((d: Value) => WhichReply(fs, LastParam(params), d))]
  }

  /**
   * What one branch of `parallel` settles with when it is called as
   * `f(data, callback)`, whatever its parameter count: a two-parameter step
   * or a function of another arity settles as its body calls back; a
   * one-parameter step ignores the callback, so its promise stays pending
   * unless it throws; a marker `() => {}` does nothing; calling a
   * non-function rejects.
   */
  function BranchReply(f: Step, d: Value): (r: Reply)
    ensures r.Ok? ==> (f.Async? && r == f.reply(d)) || (f.Other? && r == f.branch(d))
    ensures f.Async? ==> r == f.reply(d)
    ensures f.Other? ==> r == f.branch(d)
    ensures f.Sync? ==> (r.Err? <==> f.call(d).Throws?) && !r.Ok?
    ensures (f.Missing? || f.NotFunction?) ==> r == Err(NotCallable)
    ensures (f.StartTag? || f.StopTag?) ==> r == Silent
  {
    match f
    case Async(reply) => reply(d)
    case Other(branch) => branch(d)
    case Sync(call) => (match call(d) case Throws(e) => Err(e) case Returns(_) => Silent)
    case Missing => Err(NotCallable)
    case NotFunction => Err(NotCallable)
    case StartTag(_, _, _) => Silent
    case StopTag(_) => Silent
  }

  /**
   * `Promise.all` over the branches' replies, with the first failure in
   * declaration order winning.
   */
  function All(rs: seq<Reply>): (r: Reply)
    ensures r.Ok? <==> forall i :: 0 <= i < |rs| ==> rs[i].Ok?
    ensures r.Ok? ==> r.value.Arr? && |r.value.items| == |rs|
    ensures r.Ok? ==> forall i :: 0 <= i < |rs| ==> r.value.items[i] == rs[i].value
    ensures r.Err? <==> exists i :: 0 <= i < |rs| && rs[i].Err?
    ensures r.Err? ==> exists i :: 0 <= i < |rs| && rs[i] == r && forall k :: 0 <= k < i ==> !rs[k].Err?
  {
    if rs == [] then Ok(Arr([]))
    else
      var rest := All(rs[1..]);
      match rs[0]
      case Err(_) => rs[0]
      case Ok(v) => if rest.Ok? then Ok(Arr([v] + rest.value.items)) else rest
      case Silent => if rest.Err? then rest else Silent
  }

  function Branches(fs: seq<Step>, d: Value): (rs: seq<Reply>)
    ensures |rs| == |fs|
    ensures forall i :: 0 <= i < |fs| ==> rs[i] == BranchReply(fs[i], d)
  {
    seq(|fs|, i requires 0 <= i < |fs| => BranchReply(fs[i], d))
  }

  /** `parallel`: one async step that runs every inner step against the same value. */
  function ReplaceParallel(fs: seq<Step>, params: seq<Arg>): (r: seq<Step>)
    ensures |r| == 1 && r[0].Async?
  {
    [Async((d: Value) => All(Branches(fs, d)))]
  }

  /** The number `t = params[0]` turns into when `times` compares `i < t`; None is NaN. */
  function Limit(params: seq<Arg>): Option<int>
  {
    if |params| == 0 then None  // undefined
    else
      match params[0]
      case Fn(_) => None  // a function's source text is no number
      case Val(v) => ToNumber(v)
  }

  /** The loop condition `i < t` of `times`: false whenever `t` is NaN. */
  predicate Below(i: int, params: seq<Arg>)
  {
    Limit(params).Some? && i < Limit(params).value
  }

  /** How many times the loop of `times` goes round: the loop condition holds exactly below it. */
  function Count(params: seq<Arg>): (r: int)
    ensures forall i: nat :: Below(i, params) <==> i < r
  {
    match Limit(params)
    case Some(n) => n
    case None => 0
  }

  /** The position of entry `i` of a list of copies of an `m`-long list, within its copy. */
  function Offset(i: nat, m: nat): (r: nat)
    requires m > 0
    ensures r < m
  {
    if i < m then i else Offset(i - m, m)
  }

  lemma {:induction false} OffsetAfterCopies(j: nat, k: nat, m: nat)
    requires j < m
    ensures Offset(k * m + j, m) == j
  {
    if k > 0 {
      assert k * m + j - m == (k - 1) * m + j;
      OffsetAfterCopies(j, k - 1, m);
    }
  }

  /** `n` copies of `fs`, one after the other. */
  function Repeat(fs: seq<Step>, n: int): (r: seq<Step>)
    ensures |r| == if n > 0 then n * |fs| else 0
    ensures forall i :: 0 <= i < |r| ==> |fs| > 0 && r[i] == fs[Offset(i, |fs|)]
  {
    if n <= 0 then []
    else
      var prev := Repeat(fs, n - 1);
      var r := prev + fs;
      assert |r| == n * |fs|;
      forall i | |prev| <= i < |r|
        ensures r[i] == fs[Offset(i, |fs|)]
      {
        OffsetAfterCopies(i - |prev|, n - 1, |fs|);
      }
      r
  }

  /** `times` (the test suite's user tag): the inner steps repeated `params[0]` times. */
  function ReplaceTimes(fs: seq<Step>, params: seq<Arg>): seq<Step>
  {
    Repeat(fs, Count(params))
  }

  /** The replace function a tag carries, applied to a region. */
  function Replace(t: Transform, fs: seq<Step>, params: seq<Arg>): seq<Step>
  {
    match t
    case Maybe => ReplaceMaybe(fs, params)
    case Which => ReplaceWhich(fs, params)
    case Parallel => ReplaceParallel(fs, params)
    case Times => ReplaceTimes(fs, params)
  }

  /** `times`, run as the test suite writes it: a loop that concatenates. */
  method TimesLoop(fs: seq<Step>, params: seq<Arg>) returns (sum: seq<Step>)
    ensures |sum| == if Count(params) > 0 then Count(params) * |fs| else 0
    ensures sum == ReplaceTimes(fs, params)
  {
    sum := [];
    var i := 0;
    while Below(i, params)
      invariant 0 <= i && (i <= Count(params) || i == 0)
      invariant sum == Repeat(fs, i)
      decreases Count(params) - i
    {
      sum := sum + fs;
      i := i + 1;
    }
  }

  /** Calls a tag's replace function on a region. */
  method RunReplace(t: Transform, fs: seq<Step>, params: seq<Arg>) returns (r: seq<Step>)
    ensures r == Replace(t, fs, params)
  {
    match t
    case Maybe => r := ReplaceMaybe(fs, params);
    case Which => r := ReplaceWhich(fs, params);
    case Parallel => r := ReplaceParallel(fs, params);
    case Times => r := TimesLoop(fs, params);
  }

  /**
   * No replace function creates a stop marker: given a region without one
   * (which the region before the leftmost stop marker always is), the
   * replacement has none either.
   */
  lemma ReplaceNoEnds(t: Transform, fs: seq<Step>, params: seq<Arg>)
    requires NoEnds(fs)
    ensures NoEnds(Replace(t, fs, params))
  {
    var r := Replace(t, fs, params);
    if t == Times && |fs| > 0 {
      forall i | 0 <= i < |r| ensures !IsEnd(r[i]) {
        assert r[i] == fs[Offset(i, |fs|)];
      }
    }
  }

  /** A region without markers is replaced by steps without markers. */
  lemma ReplaceNoMarkers(t: Transform, fs: seq<Step>, params: seq<Arg>)
    requires NoMarkers(fs)
    ensures NoMarkers(Replace(t, fs, params))
  {
    var r := Replace(t, fs, params);
    if t == Times && |fs| > 0 {
      forall i | 0 <= i < |r| ensures !Tagged(r[i]) {
        assert r[i] == fs[Offset(i, |fs|)];
      }
    }
  }
}
