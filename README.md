# piperoni, modelled in Dafny

piperoni builds pipes. A pipe object keeps three pieces of state:

- a registry of currying functions (`curryFs`), turned into methods by `methodize` and `tagize`;
- a staged list of composable functions (`composeFs`), which grows with each method call;
- an input value, set with `in`.

`out` and `exec` run the staged list in two stages:

1. **Tag resolution** (`applyTags`) turns paired `start<Tag>`/`stop<Tag>` markers into plain steps. It repeatedly finds the leftmost stop marker and the nearest earlier start marker with the same tag. The tag's replace function gets the steps strictly between the two markers, and its result is spliced in their place.
2. **The scheduler** (`compose` driven by `iterate`) folds the input value through the resolved steps:
   - a one-parameter function is applied directly;
   - a two-parameter function is awaited through its callback;
   - a function of any other arity is skipped.

The built-in tags are `maybe` (a guard tested before each inner step), `which` (run the one step a selector picks) and `parallel` (run every step on the same value and collect the results). The test suite's user tag `times` repeats a region.

The model has the following modules (one file each):

- `Wrappers`: `Option`, `Result`.
- `Values`: the values flowing through a pipe, method arguments, and errors.
- `Steps`: staged entries. Sync/async is an explicit step kind rather than `Function.length`. Each async body is an oracle that calls back with a value, calls back with an error, or never calls back.
- `Scheduler`: `compose` and `iterate` as a state machine. Its outcomes are a synchronous throw out of `exec`, a delivery `(err, data)` to the callback, or no delivery at all.
- `Tags`: `makeNodes`, `applyTags` and `replaceNodes`. The loop and the splices are kept as methods, each proved against a specification function.
- `Transforms`: the replace functions `maybe`, `which`, `parallel` and `times`.
- `Regions`: what each replaced region does when run.
- `Pipes`: the pipe object as a class with `curryFs`, `composeFs` and `input` fields. It also covers the tag-method factory `makeTagFs`.
- `Scenarios`: the test suite's pipes, stated and proved over the model.

## Model

| member | source | states |
|---|---|---|
| Scheduler.Advance | index.js:184-198 | Part way through a run, a throw escapes `exec` only while no async step has resumed it; every early end that reaches the callback gets `(err, undefined)`. A silent async step ends the run with no delivery at all. |
| Scheduler.Run | index.js:103-130 | A run that reaches the callback at all got past resolution, and when the callback gets an error its data is `undefined`. |
| Scheduler.Compose | index.js:184-198 | The loop over the resolved steps, with the generator's suspensions, ends in exactly the outcome `Run` assigns to the staged list and input. |
| Scheduler.AdvanceAppend | index.js:189-197 | Running `a + b` is running `a`, then running `b` from the value and suspension state `a` left, unless `a` already stopped the run. |
| Scheduler.OtherIsSkipped | index.js:191-195 | A step whose arity is neither 1 nor 2 can be removed without changing the run. |
| Scheduler.PuresFold | index.js:189-197 | A list of synchronous, non-throwing steps folds the value left to right (`fn(...f1(x))`) and never suspends. |
| Scheduler.SyncRunComposes | index.js:108-123 | A staged list of synchronous steps delivers `(null, fn(...f1(x)))` to the callback. |
| Scheduler.ResumedIffAsyncPassed | index.js:108-123 | A run from `exec` continues in a promise continuation exactly when it has passed an async step. |
| Scheduler.AdvanceStaysResumed | index.js:113-118 | Once inside a promise continuation, the rest of the run stays inside one. |
| Scheduler.AsyncFailureSkipsRest | index.js:113-118 | An async step that fails skips every later step, and the callback gets `(err, undefined)`. |
| Scheduler.SyncThrowEscapes | index.js:105-123 | A throwing sync step escapes `exec` if no async step ran before it; otherwise `.catch` delivers it as `(err, undefined)`. |
| Scheduler.ResolutionErrorThrows | index.js:105-106 | A resolution error escapes `exec` before any step runs. It is a missing start tag, a leftover tag, or a TypeError. |
| Scheduler.UndefinedEntryThrows | index.js:271-291 | An `undefined` entry anywhere in the staged list makes building the nodes throw a TypeError out of `exec`, before any step runs. |
| Tags.FirstEnd | index.js:266-268 | The index found is a stop marker with none before it; -1 exactly when the list has no stop marker. |
| Tags.FirstEndAt | index.js:266-268 | A stop marker with none before it is the one `getFirstEndToken` finds. |
| Tags.NearestBegin | index.js:241-249 | The index found is a start marker of the stop marker's tag, and no start marker of that tag lies between it and the stop marker. Start markers of other tags are skipped. -1 if there is none. |
| Tags.FindBegin | index.js:241-249 | The backward scan finds exactly the nearest earlier start marker of the same tag, or -1. |
| Tags.ReplaceNodes | index.js:293-303 | After the splices, the list holds three parts: the entries before the start marker, what the replace function returns for exactly the entries strictly between the markers, and the entries after the stop marker. A TypeError results if that output holds an `undefined`/`null` entry. |
| Tags.RewriteRemovesOneStop | index.js:236-257 | Each loop round removes exactly one stop marker, so the loop terminates. |
| Tags.Resolve | index.js:236-257 | When the loop ends normally no stop marker is left. It fails only for a stop marker without a start marker, or a replace output holding an `undefined`/`null` entry. |
| Tags.Unmark | index.js:259-264 | The final map succeeds exactly when no marker is left, and then keeps the list; otherwise it reports "Tag not parsed out". |
| Tags.UnmarkReportsFirst | index.js:259-264 | The tag reported as not parsed out is that of the first leftover marker. |
| Tags.Resolution | index.js:231-269 | A resolved list holds no markers and no `undefined`/`null` entry (other non-functions pass through). A failure is a missing start tag, a leftover tag or a TypeError. |
| Tags.ApplyTags | index.js:231-269 | The loop with its in-place rewrites computes exactly `Resolution` of the staged list. |
| Tags.MarkerFreeIsFixed | index.js:231-269 | A list of functions with no marker resolves to itself. |
| Tags.UnmatchedStop | index.js:251-256 | If the leftmost stop marker has no earlier start marker of its tag, resolution throws "No begin tag" for that tag. |
| Tags.LeftoverStart | index.js:259-264 | Once the loop has rewritten every region it can, any marker left is a start marker. Resolution throws "Tag not parsed out" for the first one left, also when regions after it did resolve. |
| Tags.OneRound | index.js:236-257 | Resolving a list is resolving what one round of rewriting the leftmost stop marker's region leaves. |
| Tags.InnermostFirst | index.js:236-257 | A marker-free region closed by the leftmost stop marker is replaced first; the entries before and after it are untouched. |
| Tags.SingleRegion | index.js:293-303 | A list with one region and no other markers resolves to: the prefix, then the replace function's output on the region, then the suffix. |
| Transforms.ReplaceMaybe | index.js:319-340 | `maybe` returns a list as long as its input. A sync step stays sync and an async step stays async; any other entry becomes `undefined`. |
| Transforms.ReplaceWhich | index.js:342-353 | `which` returns a single two-parameter step. |
| Transforms.All | index.js:310-314 | `Promise.all`: all branches succeed exactly when the results come as an array in declaration order. The first failing branch in declaration order decides the failure. Otherwise no result arrives. |
| Transforms.BranchReply | index.js:355-365 | Every `parallel` branch is called as `f(data, callback)` whatever its parameter count. A two-parameter step, or a function of another arity, settles as its body calls back; a one-parameter branch ignores the callback, so it fails only by throwing and otherwise stays pending; a marker stays pending; calling a non-function rejects with a TypeError. |
| Transforms.ReplaceParallel | index.js:305-317 | `parallel` returns a single two-parameter step. |
| Transforms.Repeat | test/index.js:508-515 | `n` copies of a region: `n` times its length, each entry the entry at the same offset of the region. |
| Transforms.Count | test/index.js:510-511 | The loop of `times` goes round exactly as many times as `i < t` holds for i = 0, 1, …, with `t` converted as JavaScript compares it. A NaN, negative or zero `t` means no rounds. |
| Transforms.TimesLoop | test/index.js:508-515 | The concatenating loop of `times`, tested with `i < t`, returns `Count` copies of the region. |
| Transforms.ReplaceNoEnds | index.js:305-353 | None of the modelled replace functions (`maybe`, `which`, `parallel`, `times`) creates a stop marker, which is what makes resolution terminate. |
| Transforms.ReplaceNoMarkers | index.js:305-353 | A replace function given a marker-free region returns a marker-free list. |
| Regions.MaybeTestsEachTurn | index.js:319-340 | Each guarded step tests the value current at its own turn. It applies the step when the test is truthy and passes the value through unchanged otherwise. |
| Regions.GuardedStep | index.js:321-339 | A guarded sync or async step runs as the step itself when the test is truthy. Otherwise it passes the value through unchanged: directly for a sync step, through the callback (so the run resumes) for an async one. |
| Regions.MaybeWithoutTest | index.js:319-337 | A `maybe` region whose last param is not a function fails at its first step. A sync step throws: out of `exec` before any resume, to the callback after one. An async step rejects with a TypeError. |
| Regions.WhichActsAsPicked | index.js:342-353 | A `which` region runs only the picked step `fs[pick(data)]`, inside the promise continuation. |
| Regions.WhichOutOfRange | index.js:344-346 | A selector that picks no step makes the run deliver a TypeError. |
| Regions.WhichPicksNonFunction | index.js:344-351 | If the picked entry is neither a one- nor a two-parameter function, it is never called and the run never reaches the callback. |
| Regions.ParallelResultsInOrder | index.js:305-317 | When every branch succeeds, the value becomes the array of branch results in declaration order. |
| Regions.ParallelFirstFailureWins | index.js:305-317 | The first failing branch in declaration order stops the run with its error. |
| Regions.ParallelNeverSettles | index.js:305-317 | If no branch fails and one never settles, `Promise.all` stays pending and the run never reaches the callback. |
| Regions.TimesRepeatsRegion | test/index.js:508-515 | Running `times(n)` of a region runs the region `n` times in a row. |
| Pipes.Lookup | index.js:168-176 | A method name is found exactly when some registered function has it. The function found has that name. |
| Pipes.LookupIsLast | index.js:168-176 | The method a name invokes is the last registered function with that name. |
| Pipes.LookupAppend | index.js:75-79 | Registering more functions never removes a method. |
| Pipes.LookupLastWins | index.js:168-176 | A later registration of a name overrides every earlier one. |
| Pipes.LookupSkipsOthers | index.js:168-176 | Earlier registrations of other names do not affect a lookup. |
| Pipes.LookupPastLater | index.js:168-176 | Later registrations of other names do not affect a lookup. |
| Pipes.Capitalized | index.js:202-203 | The tag name is the base name with its first letter upper-cased and every other letter lower-cased, of the same length; an empty base name is a TypeError. |
| Pipes.CapitalizedIgnoresCase | index.js:202-203 | Base names that differ only in letter case make the same tag. |
| Pipes.CapitalizedIsNormal | index.js:202-203 | Capitalizing a tag name again leaves it unchanged. |
| Pipes.MakeTagFs | index.js:200-211 | Making tag methods succeeds exactly when no base name is empty. It gives two methods per tag. |
| Pipes.MakeTagFsPairs | index.js:200-211 | For the i-th tag the methods are `start<Tag>` (carrying the replace function) and then `stop<Tag>`. |
| Pipes.TagMethodNames | index.js:204-205 | Two tag method names are equal only when their tags are, and no `start<Tag>` name equals a `stop<Tag>` name. |
| Pipes.BuiltinTagsReachable | index.js:227 | With methods named by `_name`, `startParallel` and `stopParallel` reach the `parallel` tag's methods. |
| Pipes.TagMethodsHiddenAsWritten | index.js:168-175 | With methods named by an inferred `f.name`, all built-in tag methods share one name, and none is `startParallel`. Looking `startParallel` up then finds nothing on any pipe with no other method of that name, and the shared name reaches only `stopWhich`, the last one installed. |
| Pipes.InvokedRegion | index.js:219-225 | `start<Tag>(...args)` and `stop<Tag>(...)` around a region stage a pair that resolution matches. The replace function gets exactly the start call's arguments as its params; the stop call's arguments play no part. |
| Pipes.BuiltinTagsMade | index.js:66-73 | Every pipe registers `startMaybe`/`stopMaybe`, `startParallel`/`stopParallel` and `startWhich`/`stopWhich`, in that order. |
| Pipes.Pipe.constructor | index.js:62-73 | A new pipe has the parent's registry followed by the built-in tag methods, the parent's staged list, and input `null`. |
| Pipes.Pipe.Methodize | index.js:75-79 | The new currying functions are appended to the registry; nothing else changes. |
| Pipes.Pipe.Tagize | index.js:81-86 | On success the tags' start and stop methods are appended to the registry. On an empty base name the TypeError leaves the registry unchanged. |
| Pipes.Pipe.C | index.js:88-91 | The function is appended to the staged list; nothing else changes. |
| Pipes.Pipe.In | index.js:93-96 | Sets the input; the registry and the staged list do not change. |
| Pipes.Pipe.Invoke | index.js:171-174 | A known method appends what its currying function makes from the arguments to the staged list; an unknown name is an error and stages nothing. |
| Pipes.Pipe.Exec | index.js:103-130 | Runs the staged list from the given value. |
| Pipes.Pipe.Out | index.js:98-101 | Runs the staged list from the stored input. |
| Pipes.Pipe.Clone | index.js:139-141 | The clone is a new object with copies of both lists (the built-in tag methods appended again) and input `null`. |
| Pipes.Pipe.Clear | index.js:143-146 | Empties the staged list; the registry and the input are kept. |
| Scenarios.IncrementsAdd | test/index.js:461-479 | `increment(y)` and `waitAndIncrement(y)` add `y`, synchronously and through the callback. |
| Scenarios.DirectlyComposed | test/index.js:51-60 | `c(+10)`, `c(*10)` from 0 deliver 100. |
| Scenarios.SyncComposed | test/index.js:74-83 | Two sync increments of 1 from 0 deliver 2. |
| Scenarios.AsyncComposed | test/index.js:85-95 | Two async increments of 1 from 0 deliver 2. |
| Scenarios.MixedComposed | test/index.js:97-116 | A sync and an async increment, in either order, deliver 2. |
| Scenarios.SyncErrorThrows | test/index.js:130-142 | A sync ReferenceError before any async step escapes the run as a throw. |
| Scenarios.AsyncErrorSkips | test/index.js:144-154 | A ReferenceError inside an async step skips the later increment and reaches the callback as an error. |
| Scenarios.ParallelThenSum | test/index.js:275-288 | `parallel` around `waitAndIncrement(a)` and `waitAndIncrement(b)`, then a sum, delivers `a + b` (3 in the suite). |
| Scenarios.ParallelOfIncrements | index.js:305-317 | The parallel step over two increments of 0 yields `[a, b]`, in declaration order. |
| Scenarios.WhichRunsSecond | test/index.js:290-303 | A `which` region whose selector returns 1 runs only its second step. |
| Scenarios.WhichPicksSecond | test/index.js:290-318 | Picking the second of three increments, sync or async, adds only that increment. |
| Scenarios.MaybeAroundIncrement | test/index.js:320-344 | `maybe(data < 1)` around a sync increment adds 1 from 0 and skips it from 1. |
| Scenarios.MaybeAroundWaitIncrement | test/index.js:346-370 | The same holds around an async increment. |
| Scenarios.TimesAroundIncrement | test/index.js:372-383 | `times(n)` around an increment of 1 adds `n`. |
| Scenarios.MissingStartTag | test/index.js:405-418 | A stop marker without a start marker throws "No begin tag" out of the run. |
| Scenarios.LeftoverStartTag | test/index.js:420-433 | A start marker without a stop marker throws "Tag not parsed out" out of the run. |
| Scenarios.LeftoverAfterRegion | index.js:259-264 | An unclosed `times` before a `maybe` region is still reported as not parsed out after the `maybe` region resolves. |
| Scenarios.NestedResolves | test/index.js:385-403 | The nested `times` inside `parallel`, followed by the sum and a `maybe` sibling, resolves to one parallel step over five increments, then the sum, then the guarded increment. |
| Scenarios.NestedRuns | test/index.js:385-403 | From 0 that resolved list reaches 5 and the guard leaves it there. |
| Scenarios.SiblingsAndChildren | test/index.js:385-403 | Nested and sibling tags deliver 5. |
| Scenarios.IncrementRegistered | test/index.js:10-14 | After `methodize(increment)`, the name `increment` reaches it. |
| Scenarios.CloneRegistry | test/index.js:194-199 | After the built-in tags are registered again in a clone, `increment` still reaches the same function. |
| Scenarios.IncrementPipe | test/index.js:10-14 | A fresh pipe with `increment` methodized holds it after the built-in tag methods, with nothing staged. |
| Scenarios.UnrecognizedMethod | test/index.js:40-46 | Invoking `foo` on a fresh pipe is an error naming `foo`. |
| Scenarios.PersistAfterOut | test/index.js:159-174 | Staged steps persist after `out`: a second increment and run deliver twice the amount. |
| Scenarios.ClearedAfterOut | test/index.js:176-192 | After `clear`, only the newly staged increment runs. |
| Scenarios.ClonedPipe | test/index.js:209-220 | A clone is a distinct pipe with the same staged list and the method still available. |
| Scenarios.CloneIsIndependent | test/index.js:222-240 | Increments staged on the clone and on the original after cloning affect only their own runs. |
| Scenarios.StagedAfterOut | test/index.js:242-253 | A step staged after `out` has no effect on that run. |
| Scenarios.TimesTagMade | test/index.js:372-376 | `tagize({times})` makes `startTimes` (carrying `times`) and `stopTimes`. |
| Scenarios.TaggedRegistry | test/index.js:372-378 | In a pipe with `increment` and the `times` tag, the names `startTimes`, `stopTimes` and `increment` reach their methods. |
| Scenarios.ClonedTagPipe | test/index.js:201-207 | A clone of a pipe with the `times` tag offers `startTimes`. |
| Scenarios.TimesPipe | test/index.js:372-378 | Staging `startTimes(k)`, `increment(1)`, `stopTimes()` puts exactly those markers and that step in the staged list. |
| Scenarios.TagsAdded | test/index.js:372-383 | The pipe built with the `times` tag delivers `k` from 0 (5 in the suite). |

## Left out

- The proxy dispatch and its Ramda fallback (`makeProxy`, index.js:378-393) are not modelled. `Pipes.Pipe.Invoke` looks a name up in the registry and reports an unknown name as an error. The real pipe would stage Ramda's function of that name instead (`map`, `reduce`, …). The "Ramda Integration" tests are therefore not modelled. The `reduce` step of the parallel tests is a plain sync step that sums an array.
- The proxy's error for an unknown name is raised on property access (`pipe.foo`). `Pipes.Pipe.Invoke` raises it at the call instead.
- A currying function whose name equals a pipe member (`in`, `out`, `clone`, …) replaces that member in the source. The model keeps registry methods and pipe members apart.
- Timing is not modelled: the `setImmediate` deferral of the callback and the promise wrapping of `makePromise`. Only the outcome is modelled, never when it arrives.
- `parallel` runs its branches concurrently. The model takes the branch outcomes as a list and lets the first failure in declaration order win, not the first in time.
- `validate`/`validateFs` are not modelled: `validate` refers to an undefined variable, so it always throws a ReferenceError.
- `funcize`, `mixin` and `getCurryFs` are not modelled, nor is the console demo in `foo.js`.
- Floating point, strings and objects are not modelled, nor most of JavaScript's coercions; values are integers, booleans, `null`, `undefined` and arrays.
- `Function.length` is replaced by an explicit step kind: sync, async, other arity, `undefined`/`null`, another non-function (a number, say), or a marker. A non-function entry that has a `_tag` property is not modelled.
- A staged non-function is always skipped by the model's compose. In the source, one whose `length` is 1 or 2 (an array such as `[x]`) is called by compose, and that call throws a TypeError; `maybe` and `which` likewise call such an entry. The model's `NotFunction` stands for non-functions whose `length` is neither 1 nor 2 (a number, `true`).
- `tagize` accepts any replace function; the model's tags carry only `maybe`, `which`, `parallel` and the test suite's `times`. A user replace function that returns markers, such as a `start<Tag>`/`stop<Tag>` pair, is not modelled: the loop at index.js:236 would then not terminate, and `Transforms.ReplaceNoEnds` holds only for the modelled four.
- Each async body's behaviour is an oracle, which calls back with a value or an error, or never calls back. `waitAndIncrementAsyncErr`, which throws inside a timer, is not modelled. So is the `time` argument of `waitAndIncrement`.
- `maybe`'s tests and `which`'s selectors are total functions on values. A test that throws is not modelled.
- Each tag has one marker object, shared by all its `start<Tag>` calls. A later call overwrites its params, and the model does not reproduce that.
- `maybe` and `which` take their function with `params.pop()` from those shared params, which the model does not reproduce either. A second run of the pipe finds them empty. So does a second region of the same built-in tag in one run: the first replacement has already popped the test or selector. The model treats each marker's params as immutable and always uses their last element.
- `Tags.ApplyTags` / `Tags.ReplaceNodes`: the node array is a local sequence that each splice reassigns. It belongs to `applyTags` alone, so no aliasing is lost.
- `Pipes.MakeTagFs` takes the tags in the order given. `Object.keys` puts integer-like keys first, which is not modelled.
- `Pipes.Capitalized` maps ASCII letters only; other characters keep their case.
- `Regions.MaybeTestsEachTurn` is stated for regions of synchronous steps. A guarded async step is covered one step at a time by `Regions.GuardedStep`.
- `Pipes.MethodName` names tag methods by their `_name`, as the test suite expects. An engine that infers `f.name` for the arrow function at index.js:219 installs them all as `curryFunc` instead (see Findings).

## Findings

| source | as written | input that shows it | evidently intended | confidence | as-written member | corrected member |
|---|---|---|---|---|---|---|
| index.js:170 | `makeMethods` prefers `f.name` over `f._name`. The tag methods are arrow functions assigned to `curryFunc` (index.js:219), and engines that infer function names give each of them the name `curryFunc`, so that name wins. | `makePipe().startParallel()` | every tag method installed under its `_name`, `start<Tag>` or `stop<Tag>`, as the tests at test/index.js:275-433 invoke them | medium: depends on the engine's function-name inference; not executed | Pipes.TagMethodsHiddenAsWritten | Pipes.BuiltinTagsReachable |
