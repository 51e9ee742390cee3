/**
 * The run: `exec` resolves the tags of a snapshot of the staged list and
 * folds the value through the resolved steps, suspending at each
 * asynchronous step until its callback fires.
 */
module Scheduler {
  import opened Wrappers
  import opened Values
  import opened Steps
  import opened Tags

  /**
   * How a run ends: an exception out of the call that started it, the
   * completion callback called with `(err, data)`, or no callback at all
   * (an asynchronous step that never calls back).
   */
  datatype Outcome =
    | ThrowSync(error: Error)
    | Delivered(err: Option<Error>, data: Value)
    | NeverDelivered

  /**
   * A run part way: still going with the current value (and whether an
   * asynchronous step has already resumed it), or ended.
   */
  datatype Progress = Running(value: Value, resumed: bool) | Stopped(outcome: Outcome)

  /**
   * An exception raised while the run goes on. Before the first
   * asynchronous step it leaves `exec` synchronously; after one, the run is
   * inside a promise's `then`, and the `catch` behind it hands the error to
   * the callback.
   */
  function Escape(e: Error, resumed: bool): Outcome
  {
    if resumed then Delivered(Some(e), Undefined) else ThrowSync(e)
  }

  /** The loop of `compose`, driven by `iterate`, over the resolved steps. */
  function Advance(fs: seq<Step>, v: Value, resumed: bool): (p: Progress)
    ensures p.Stopped? && p.outcome.ThrowSync? ==> !resumed
    ensures p.Stopped? && p.outcome.Delivered? ==> p.outcome.err.Some? && p.outcome.data == Undefined
  {
    if fs == [] then Running(v, resumed)
    else
      match fs[0]
      case Sync(call) =>
        (match call(v)
         case Returns(w) => Advance(fs[1..], w, resumed)
         case Throws(e) => Stopped(Escape(e, resumed)))
      case Async(reply) =>
        (match reply(v)
         case Ok(w) => Advance(fs[1..], w, true)
         case Err(e) => Stopped(Delivered(Some(e), Undefined))
         case Silent => Stopped(NeverDelivered))
      case Missing => Stopped(Escape(NotCallable, resumed))
      case _ => Advance(fs[1..], v, resumed)  // neither 1 nor 2 parameters: skipped
  }

  /** The end of a run that got through every step: the callback gets `(null, value)`. */
  function Finish(p: Progress): Outcome
  {
    match p
    case Running(v, _) => Delivered(None, v)
    case Stopped(o) => o
  }

  /** A whole run of the staged list `staged` from `init`. */
  function Run(staged: seq<Step>, init: Value): (r: Outcome)
    ensures r.Delivered? ==> Resolution(staged).Success?
    ensures r.Delivered? && r.err.Some? ==> r.data == Undefined
  {
    match Resolution(staged)
    case Failure(e) => ThrowSync(e)
    case Success(fs) => Finish(Advance(fs, init, false))
  }

  /** `exec`: resolve the snapshot, then run the `for` loop of `compose`. */
  method Compose(staged: seq<Step>, init: Value) returns (out: Outcome)
    ensures out == Run(staged, init)
  {
    var resolved := ApplyTags(staged);
    if resolved.Failure? {
      return ThrowSync(resolved.error);
    }
    var funcs := resolved.value;
    var value := init;
    var resumed := false;
    for i := 0 to |funcs|
      invariant Advance(funcs, init, false) == Advance(funcs[i..], value, resumed)
    {
      assert funcs[i..][1..] == funcs[i + 1..];
      match funcs[i] {
        case Sync(call) =>
          var c := call(value);
          if c.Throws? {
            return Escape(c.error, resumed);
          }
          value := c.value;
        case Async(reply) =>
          match reply(value) {
            case Ok(w) =>
              value := w;
              resumed := true;
            case Err(e) =>
              return Delivered(Some(e), Undefined);
            case Silent =>
              return NeverDelivered;
          }
        case Missing =>
          return Escape(NotCallable, resumed);
        case _ =>
      }
    }
    out := Delivered(None, value);
  }

  /** Where a run stands after `b`, picking up from the progress made through a prefix. */
  function Then(p: Progress, b: seq<Step>): Progress
  {
    match p
    case Running(v, r) => Advance(b, v, r)
    case Stopped(_) => p
  }

  /** Running `a + b` is running `a`, then `b` from wherever `a` left off. */
  lemma {:induction false} AdvanceAppend(a: seq<Step>, b: seq<Step>, v: Value, r: bool)
    ensures Advance(a + b, v, r) == Then(Advance(a, v, r), b)
  {
    if a == [] {
      assert a + b == b;
    } else {
      assert (a + b)[0] == a[0];
      assert (a + b)[1..] == a[1..] + b;
      match a[0]
      case Sync(call) =>
        if call(v).Returns? {
          AdvanceAppend(a[1..], b, call(v).value, r);
        }
      case Async(reply) =>
        if reply(v).Ok? {
          AdvanceAppend(a[1..], b, reply(v).value, true);
        }
      case Missing =>
      case Other(_) =>
        AdvanceAppend(a[1..], b, v, r);
      case NotFunction =>
        AdvanceAppend(a[1..], b, v, r);
      case StartTag(_, _, _) =>
        AdvanceAppend(a[1..], b, v, r);
      case StopTag(_) =>
        AdvanceAppend(a[1..], b, v, r);
    }
  }

  /** A step of any arity but 1 or 2 leaves the run exactly as it would be without it. */
  lemma OtherIsSkipped(a: seq<Step>, b: seq<Step>, o: Value -> Reply, v: Value, r: bool)
    ensures Advance(a + [Other(o)] + b, v, r) == Advance(a + b, v, r)
  {
    AdvanceAppend(a + [Other(o)], b, v, r);
    AdvanceAppend(a, [Other(o)], v, r);
    AdvanceAppend(a, b, v, r);
    match Advance(a, v, r)
    case Running(w, r') =>
      assert Advance([Other(o)], w, r') == Running(w, r');
    case Stopped(_) =>
  }

  /** A synchronous step that always returns `f` of its argument. */
  function Pure(f: Value -> Value): Step
  {
    Sync((v: Value) => Returns(f(v)))
  }

  function Pures(fs: seq<Value -> Value>): (steps: seq<Step>)
    ensures |steps| == |fs|
    ensures forall i :: 0 <= i < |fs| ==> steps[i] == Pure(fs[i])
  {
    seq(|fs|, i requires 0 <= i < |fs| => Pure(fs[i]))
  }

  /** The composition `fn(...f2(f1(x)))`: the last function applied to what the others make of `x`. */
  function Composed(fs: seq<Value -> Value>, x: Value): Value
  {
    if fs == [] then x else fs[|fs| - 1](Composed(fs[..|fs| - 1], x))
  }

  /** Synchronous steps that never throw fold the value through in order, and never suspend. */
  lemma {:induction false} PuresFold(fs: seq<Value -> Value>, x: Value, r: bool)
    ensures Advance(Pures(fs), x, r) == Running(Composed(fs, x), r)
  {
    if fs != [] {
      var n := |fs| - 1;
      assert Pures(fs) == Pures(fs[..n]) + [Pure(fs[n])];
      AdvanceAppend(Pures(fs[..n]), [Pure(fs[n])], x, r);
      PuresFold(fs[..n], x, r);
      var c := Composed(fs[..n], x);
      assert Pure(fs[n]).call(c) == Returns(fs[n](c));
      assert [Pure(fs[n])][1..] == [];
      assert Advance([Pure(fs[n])], c, r) == Running(fs[n](c), r);
    }
  }

  /**
   * A pipe of synchronous steps delivers the left-to-right composition of
   * their functions, `fn(...f1(x))`, with no error.
   */
  lemma SyncRunComposes(fs: seq<Value -> Value>, x: Value)
    ensures Run(Pures(fs), x) == Delivered(None, Composed(fs, x))
  {
    MarkerFreeIsFixed(Pures(fs));
    PuresFold(fs, x, false);
  }

  predicate HasAsync(fs: seq<Step>)
  {
    exists k :: 0 <= k < |fs| && fs[k].Async?
  }

  /** A run still going has been resumed exactly when an asynchronous step lay behind it. */
  lemma {:induction false} ResumedIffAsyncPassed(a: seq<Step>, v: Value, w: Value, r: bool)
    requires Advance(a, v, false) == Running(w, r)
    ensures r <==> HasAsync(a)
  {
    if a != [] {
      assert HasAsync(a) <==> a[0].Async? || HasAsync(a[1..]) by {
        assert forall k :: 0 < k < |a| ==> a[k] == a[1..][k - 1];
      }
      match a[0]
      case Sync(call) =>
        ResumedIffAsyncPassed(a[1..], call(v).value, w, r);
      case Async(reply) =>
        AdvanceStaysResumed(a[1..], reply(v).value, w, r);
      case Missing =>
      case Other(_) =>
        ResumedIffAsyncPassed(a[1..], v, w, r);
      case NotFunction =>
        ResumedIffAsyncPassed(a[1..], v, w, r);
      case StartTag(_, _, _) =>
        ResumedIffAsyncPassed(a[1..], v, w, r);
      case StopTag(_) =>
        ResumedIffAsyncPassed(a[1..], v, w, r);
    }
  }

  /** Once resumed, a run stays resumed. */
  lemma {:induction false} AdvanceStaysResumed(a: seq<Step>, v: Value, w: Value, r: bool)
    requires Advance(a, v, true) == Running(w, r)
    ensures r
  {
    if a != [] {
      match a[0]
      case Sync(call) =>
        AdvanceStaysResumed(a[1..], call(v).value, w, r);
      case Async(reply) =>
        AdvanceStaysResumed(a[1..], reply(v).value, w, r);
      case Missing =>
      case Other(_) =>
        AdvanceStaysResumed(a[1..], v, w, r);
      case NotFunction =>
        AdvanceStaysResumed(a[1..], v, w, r);
      case StartTag(_, _, _) =>
        AdvanceStaysResumed(a[1..], v, w, r);
      case StopTag(_) =>
        AdvanceStaysResumed(a[1..], v, w, r);
    }
  }

  /**
   * An asynchronous step that calls back with an error ends the run there:
   * whatever follows is skipped and the callback gets `(err, undefined)`.
   */
  lemma AsyncFailureSkipsRest(a: seq<Step>, reply: Value -> Reply, b: seq<Step>, x: Value, w: Value, r: bool, e: Error)
    requires Advance(a, x, false) == Running(w, r) && reply(w) == Err(e)
    ensures Finish(Advance(a + [Async(reply)] + b, x, false)) == Delivered(Some(e), Undefined)
  {
    AdvanceAppend(a + [Async(reply)], b, x, false);
    AdvanceAppend(a, [Async(reply)], x, false);
  }

  /**
   * A synchronous step that throws: before any asynchronous step the
   * exception escapes `exec` and the callback is never called; after one,
   * the callback gets `(err, undefined)`. Either way nothing after it runs.
   */
  lemma SyncThrowEscapes(a: seq<Step>, call: Value -> Call, b: seq<Step>, x: Value, w: Value, r: bool, e: Error)
    requires Advance(a, x, false) == Running(w, r) && call(w) == Throws(e)
    ensures Finish(Advance(a + [Sync(call)] + b, x, false))
         == if HasAsync(a) then Delivered(Some(e), Undefined) else ThrowSync(e)
  {
    AdvanceAppend(a + [Sync(call)], b, x, false);
    AdvanceAppend(a, [Sync(call)], x, false);
    ResumedIffAsyncPassed(a, x, w, r);
  }

  /** A staged list that does not resolve throws out of `exec` before any step runs, whatever the input. */
  lemma ResolutionErrorThrows(staged: seq<Step>, x: Value)
    requires Resolution(staged).Failure?
    ensures Run(staged, x) == ThrowSync(Resolution(staged).error)
    ensures Run(staged, x).error.NoBeginTag? || Run(staged, x).error.TagNotParsedOut? || Run(staged, x).error == NotCallable
  {
  }

  /**
   * Building the nodes reads `f._tag` of every staged entry before any step
   * runs, so an `undefined` entry anywhere in the list throws a TypeError
   * out of `exec`.
   */
  lemma UndefinedEntryThrows(staged: seq<Step>, k: nat, x: Value)
    requires k < |staged| && staged[k].Missing?
    ensures Run(staged, x) == ThrowSync(NotCallable)
  {
    assert !NoMissing(staged);
  }

}
