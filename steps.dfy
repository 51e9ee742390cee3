/**
 * The entries of a pipe's staged list: composable functions and the
 * start/stop markers of tag regions.
 */
module Steps {
  import opened Wrappers
  import opened Values

  /** What a synchronous body does when called: it returns or it throws. */
  datatype Call = Returns(value: Value) | Throws(error: Error)

  /**
   * What an asynchronous body does with its callback: calls it with a value,
   * calls it with an error (or throws, which its promise turns into a
   * rejection), or never calls it at all.
   */
  datatype Reply = Ok(value: Value) | Err(error: Error) | Silent

  /** The replace functions a tag can carry. `Times` is the user tag of the test suite. */
  datatype Transform = Maybe | Which | Parallel | Times

  /**
   * One entry of the staged list. The source tells a synchronous from an
   * asynchronous function by its declared parameter count; here the kind is
   * explicit. `Other` is a function whose parameter count is neither 1 nor 2:
   * compose skips it, and `branch` is what it does when `parallel` calls it
   * anyway as `f(data, callback)` (calls back, throws, or neither).
   * `Missing` an entry that is `undefined` or `null` (reading a property of
   * it is a TypeError), `NotFunction` any other entry that is not a function
   * (a number, say: its properties read as `undefined`, and calling it is a
   * TypeError), and the two markers are the zero-parameter functions that
   * `start<Tag>` and `stop<Tag>` stage.
   */
  datatype Step =
    | Sync(call: Value -> Call)
    | Async(reply: Value -> Reply)
    | Other(branch: Value -> Reply)
    | Missing
    | NotFunction
    | StartTag(tag: string, params: seq<Arg>, replace: Transform)
    | StopTag(tag: string)

  /** A node that opens a region: a start marker with a (truthy) tag. */
  predicate IsBegin(f: Step)
  {
    f.StartTag? && f.tag != ""
  }

  /** A node that closes a region: a stop marker with a (truthy) tag. */
  predicate IsEnd(f: Step)
  {
    f.StopTag? && f.tag != ""
  }

  /** A node the resolver treats as a marker. */
  predicate Tagged(f: Step)
  {
    IsBegin(f) || IsEnd(f)
  }

  predicate NoEnds(fs: seq<Step>)
  {
    forall i :: 0 <= i < |fs| ==> !IsEnd(fs[i])
  }

  predicate NoMarkers(fs: seq<Step>)
  {
    forall i :: 0 <= i < |fs| ==> !Tagged(fs[i])
  }

  /** No entry is `undefined`. */
  predicate NoMissing(fs: seq<Step>)
  {
    forall i :: 0 <= i < |fs| ==> !fs[i].Missing?
  }

  /** The last parameter, as `params.pop()` reads it. */
  function LastParam(params: seq<Arg>): Option<Arg>
  {
    if params == [] then None else Some(params[|params| - 1])
  }
}
