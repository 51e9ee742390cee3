/**
 * A pipe: its currying functions (the registry its chainable methods come
 * from), its staged list of composable functions, and its pending input.
 */
module Pipes {
  import opened Wrappers
  import opened Values
  import opened Steps
  import opened Scheduler
  import opened Tags
  import opened Transforms

  /**
   * A currying function: invoked with the method's arguments, it returns the
   * composable function to stage. The tag methods `start<Tag>` and
   * `stop<Tag>` stage the tag's markers; a start marker keeps the arguments
   * as its params.
   */
  datatype Curry =
    | Curried(name: string, make: seq<Arg> -> Step)
    | StartMethod(tag: string, replace: Transform)
    | StopMethod(tag: string)

  /**
   * The name the method is installed under: the currying function's own
   * name, and for a tag method the `_name` that makeTagFunc gives it.
   */
  function MethodName(c: Curry): string
  {
    match c
    case Curried(name, _) => name
    case StartMethod(tag, _) => "start" + tag
    case StopMethod(tag) => "stop" + tag
  }

  /** What invoking the method with `args` stages. */
  function Instantiate(c: Curry, args: seq<Arg>): Step
  {
    match c
    case Curried(_, make) => make(args)
    case StartMethod(tag, replace) => StartTag(tag, args, replace)
    case StopMethod(tag) => StopTag(tag)
  }

  /**
   * The method a name reaches: methods are installed one after the other
   * under their names, so the last currying function with that name wins.
   */
  function Lookup(fs: seq<Curry>, name: string): (r: Option<Curry>)
    ensures r.None? <==> forall i :: 0 <= i < |fs| ==> MethodName(fs[i]) != name
    ensures r.Some? ==> MethodName(r.value) == name
  {
    if fs == [] then None
    else if MethodName(fs[|fs| - 1]) == name then Some(fs[|fs| - 1])
    else
      var r := Lookup(fs[..|fs| - 1], name);
      assert forall i :: 0 <= i < |fs| - 1 ==> fs[..|fs| - 1][i] == fs[i];
      r
  }

  /** The name reaches the currying function at `i` when no later one has that name. */
  lemma {:induction false} LookupIsLast(fs: seq<Curry>, name: string, i: nat)
    requires i < |fs| && MethodName(fs[i]) == name
    requires forall k :: i < k < |fs| ==> MethodName(fs[k]) != name
    ensures Lookup(fs, name) == Some(fs[i])
  {
    var n := |fs| - 1;
    if i < n {
      assert forall k :: i < k < n ==> fs[..n][k] == fs[k];
      LookupIsLast(fs[..n], name, i);
    }
  }

  /** Registering more currying functions never makes a name unreachable. */
  lemma LookupAppend(a: seq<Curry>, b: seq<Curry>, name: string)
    requires Lookup(a, name).Some? || Lookup(b, name).Some?
    ensures Lookup(a + b, name).Some?
  {
    if Lookup(b, name).Some? {
      var i :| 0 <= i < |b| && MethodName(b[i]) == name;
      assert (a + b)[|a| + i] == b[i];
    } else {
      var i :| 0 <= i < |a| && MethodName(a[i]) == name;
      assert (a + b)[i] == a[i];
    }
  }

  /** A name registered later shadows any earlier currying function with that name. */
  lemma {:induction false} LookupLastWins(a: seq<Curry>, b: seq<Curry>, name: string)
    requires Lookup(b, name).Some?
    ensures Lookup(a + b, name) == Lookup(b, name)
  {
    var n := |b| - 1;
    assert (a + b)[|a + b| - 1] == b[n];
    if MethodName(b[n]) != name {
      assert (a + b)[..|a + b| - 1] == a + b[..n];
      assert Lookup(b, name) == Lookup(b[..n], name);
      LookupLastWins(a, b[..n], name);
    }
  }

  /** Currying functions under other names do not change what a name reaches. */
  lemma LookupSkipsOthers(a: seq<Curry>, b: seq<Curry>, name: string)
    requires forall i :: 0 <= i < |a| ==> MethodName(a[i]) != name
    ensures Lookup(a + b, name) == Lookup(b, name)
  {
    if Lookup(b, name).Some? {
      LookupLastWins(a, b, name);
    } else {
      forall i | 0 <= i < |a + b| ensures MethodName((a + b)[i]) != name {
        if i >= |a| { assert (a + b)[i] == b[i - |a|]; }
      }
    }
  }

  /** Currying functions registered later under other names do not shadow what a name reaches. */
  lemma {:induction false} LookupPastLater(a: seq<Curry>, b: seq<Curry>, name: string)
    requires forall i :: 0 <= i < |b| ==> MethodName(b[i]) != name
    ensures Lookup(a + b, name) == Lookup(a, name)
  {
    if b == [] {
      assert a + b == a;
    } else {
      var n := |b| - 1;
      assert (a + b)[|a + b| - 1] == b[n];
      assert (a + b)[..|a + b| - 1] == a + b[..n];
      LookupPastLater(a, b[..n], name);
    }
  }

  function LowerChar(ch: char): char
  {
    if 'A' <= ch <= 'Z' then (ch as int + 32) as char else ch
  }

  function UpperChar(ch: char): char
  {
    if 'a' <= ch <= 'z' then (ch as int - 32) as char else ch
  }

  function Lower(s: string): string
  {
    seq(|s|, i requires 0 <= i < |s| => LowerChar(s[i]))
  }

  /**
   * The tag made from a name given to `tagize`: lower case, then its first
   * letter upper case (ASCII letters only). An empty name throws, as
   * `tag[0].toUpperCase()` does on undefined.
   */
  function Capitalized(base: string): (r: Result<string, Error>)
    ensures r.Success? <==> base != ""
    ensures r.Failure? ==> r.error == NotCallable
    ensures r.Success? ==> |r.value| == |base|
    ensures r.Success? ==> r.value[0] == UpperChar(LowerChar(base[0]))
    ensures r.Success? ==> forall i :: 1 <= i < |base| ==> r.value[i] == LowerChar(base[i])
  {
    if base == "" then Failure(NotCallable)
    else
      var low := Lower(base);
      Success([UpperChar(low[0])] + low[1..])
  }

  /** Names that differ only in the case of ASCII letters give the same tag. */
  lemma CapitalizedIgnoresCase(a: string, b: string)
    requires Lower(a) == Lower(b)
    ensures Capitalized(a) == Capitalized(b)
  {
    assert |a| == |Lower(a)| && |b| == |Lower(b)|;
  }

  /** A tag is already in its normal form: making a tag from it gives it back. */
  lemma CapitalizedIsNormal(base: string)
    requires base != ""
    ensures Capitalized(Capitalized(base).value) == Capitalized(base)
  {
    var t := Capitalized(base).value;
    var low := Lower(base);
    assert Lower(t) == low by {
      forall i | 0 <= i < |t| ensures Lower(t)[i] == low[i] {
        if i == 0 {
          var c := low[0];
          assert LowerChar(UpperChar(c)) == c by {
            assert LowerChar(c) == c;
          }
        } else {
          assert t[i] == low[i];
          assert LowerChar(low[i]) == low[i];
        }
      }
    }
  }

  /**
   * makeTagFs: for every (name, replace function) pair, in order, a
   * `start<Tag>` and a `stop<Tag>` method sharing the tag made from the
   * name; the first empty name throws.
   */
  function MakeTagFs(tags: seq<(string, Transform)>): (r: Result<seq<Curry>, Error>)
    ensures r.Success? <==> forall i :: 0 <= i < |tags| ==> tags[i].0 != ""
    ensures r.Failure? ==> r.error == NotCallable
    ensures r.Success? ==> |r.value| == 2 * |tags|
  {
    if tags == [] then Success([])
    else
      match Capitalized(tags[0].0)
      case Failure(e) => Failure(e)
      case Success(tag) =>
        match MakeTagFs(tags[1..])
        case Failure(e) => Failure(e)
        case Success(rest) =>
          assert forall i :: 1 <= i < |tags| ==> tags[i] == tags[1..][i - 1];
          Success([StartMethod(tag, tags[0].1), StopMethod(tag)] + rest)
  }

  /**
   * The methods makeTagFs makes come in pairs: the i-th name gives the
   * start method at 2i and the stop method at 2i+1, both named after the
   * same tag, so their markers match.
   */
  lemma {:induction false} MakeTagFsPairs(tags: seq<(string, Transform)>, i: nat)
    requires MakeTagFs(tags).Success? && i < |tags|
    ensures MakeTagFs(tags).value[2 * i] == StartMethod(Capitalized(tags[i].0).value, tags[i].1)
    ensures MakeTagFs(tags).value[2 * i + 1] == StopMethod(Capitalized(tags[i].0).value)
    ensures MethodName(MakeTagFs(tags).value[2 * i]) == "start" + Capitalized(tags[i].0).value
    ensures MethodName(MakeTagFs(tags).value[2 * i + 1]) == "stop" + Capitalized(tags[i].0).value
  {
    var tag := Capitalized(tags[0].0).value;
    var rest := MakeTagFs(tags[1..]).value;
    assert MakeTagFs(tags).value == [StartMethod(tag, tags[0].1), StopMethod(tag)] + rest;
    if i > 0 {
      MakeTagFsPairs(tags[1..], i - 1);
      assert tags[1..][i - 1] == tags[i];
      assert 2 * i == 2 * (i - 1) + 2;
    }
  }

  /** The tag methods every pipe starts with. */
  function BuiltinTagFs(): seq<Curry>
  {
    [StartMethod("Maybe", Maybe), StopMethod("Maybe"),
     StartMethod("Parallel", Parallel), StopMethod("Parallel"),
     StartMethod("Which", Which), StopMethod("Which")]
  }

  /** One more tag in front: its two methods in front of the others'. */
  lemma MakeTagFsCons(name: string, t: Transform, rest: seq<(string, Transform)>, tag: string, made: seq<Curry>)
    requires Capitalized(name) == Success(tag) && MakeTagFs(rest) == Success(made)
    ensures MakeTagFs([(name, t)] + rest) == Success([StartMethod(tag, t), StopMethod(tag)] + made)
  {
    assert ([(name, t)] + rest)[1..] == rest;
  }

  lemma BuiltinNamesCapitalized()
    ensures Capitalized("maybe") == Success("Maybe")
    ensures Capitalized("parallel") == Success("Parallel")
    ensures Capitalized("which") == Success("Which")
  {
    assert Capitalized("maybe") == Success("Maybe") by {
      assert Lower("maybe") == "maybe";
      assert UpperChar('m') == 'M';
      assert "maybe"[1..] == "aybe";
      assert ['M'] + "aybe" == "Maybe";
    }
    assert Capitalized("parallel") == Success("Parallel") by {
      assert Lower("parallel") == "parallel";
      assert UpperChar('p') == 'P';
      assert "parallel"[1..] == "arallel";
      assert ['P'] + "arallel" == "Parallel";
    }
    assert Capitalized("which") == Success("Which") by {
      assert Lower("which") == "which";
      assert UpperChar('w') == 'W';
      assert "which"[1..] == "hich";
      assert ['W'] + "hich" == "Which";
    }
  }

  /** The built-in tag methods are what makeTagFs makes of `{maybe, parallel, which}`. */
  lemma BuiltinTagsMade()
    ensures MakeTagFs([("maybe", Maybe), ("parallel", Parallel), ("which", Which)]) == Success(BuiltinTagFs())
  {
    BuiltinNamesCapitalized();
    var w := [StartMethod("Which", Which), StopMethod("Which")];
    var pw := [StartMethod("Parallel", Parallel), StopMethod("Parallel")] + w;
    MakeTagFsCons("which", Which, [], "Which", []);
    assert [("which", Which)] + [] == [("which", Which)] && w + [] == w;
    MakeTagFsCons("parallel", Parallel, [("which", Which)], "Parallel", w);
    MakeTagFsCons("maybe", Maybe, [("parallel", Parallel)] + [("which", Which)], "Maybe", pw);
    assert [("maybe", Maybe)] + ([("parallel", Parallel)] + [("which", Which)])
        == [("maybe", Maybe), ("parallel", Parallel), ("which", Which)];
    assert BuiltinTagFs() == [StartMethod("Maybe", Maybe), StopMethod("Maybe")] + pw;
  }

  /**
   * Tag method names never collide unless their tags do: `start<Tag>` is
   * told apart by its tag, so is `stop<Tag>`, and no start method is named
   * like a stop method.
   */
  lemma TagMethodNames(a: string, b: string, t: Transform, u: Transform)
    ensures MethodName(StartMethod(a, t)) == MethodName(StartMethod(b, u)) <==> a == b
    ensures MethodName(StopMethod(a)) == MethodName(StopMethod(b)) <==> a == b
    ensures MethodName(StartMethod(a, t)) != MethodName(StopMethod(b))
  {
    if MethodName(StartMethod(a, t)) == MethodName(StartMethod(b, u)) {
      assert a == ("start" + a)[5..] && b == ("start" + b)[5..];
    }
    if MethodName(StopMethod(a)) == MethodName(StopMethod(b)) {
      assert a == ("stop" + a)[4..] && b == ("stop" + b)[4..];
    }
    assert ("start" + a)[2] == 'a' && ("stop" + b)[2] == 'o';
  }

  /** Under `_name`, `startParallel` and `stopParallel` reach the `parallel` tag's methods. */
  lemma BuiltinTagsReachable()
    ensures Lookup(BuiltinTagFs(), "startParallel") == Some(StartMethod("Parallel", Parallel))
    ensures Lookup(BuiltinTagFs(), "stopParallel") == Some(StopMethod("Parallel"))
  {
    var fs := BuiltinTagFs();
    assert MethodName(fs[2]) == "startParallel" && MethodName(fs[3]) == "stopParallel";
    assert |MethodName(fs[4])| == 10 && |MethodName(fs[5])| == 9;
    LookupIsLast(fs, "startParallel", 2);
    LookupIsLast(fs, "stopParallel", 3);
  }

  /**
   * The name makeMethods installs a method under on an engine that names
   * arrow functions after the variable they are assigned to: `f.name` of
   * every tag method is then `"curryFunc"`, and it wins over `_name`.
   */
  function MethodNameAsWritten(c: Curry): string
  {
    match c
    case Curried(name, _) => name
    case _ => "curryFunc"
  }

  /** `makeMethods` keyed by the as-written names: the last method of a name wins. */
  function LookupAsWritten(fs: seq<Curry>, name: string): (r: Option<Curry>)
    ensures r.None? <==> forall i :: 0 <= i < |fs| ==> MethodNameAsWritten(fs[i]) != name
    ensures r.Some? ==> MethodNameAsWritten(r.value) == name
  {
    if fs == [] then None
    else if MethodNameAsWritten(fs[|fs| - 1]) == name then Some(fs[|fs| - 1])
    else
      var r := LookupAsWritten(fs[..|fs| - 1], name);
      assert forall i :: 0 <= i < |fs| - 1 ==> fs[..|fs| - 1][i] == fs[i];
      r
  }

  /** A name that neither part uses is not found in the two together. */
  lemma AbsentAsWritten(a: seq<Curry>, b: seq<Curry>, name: string)
    requires forall i :: 0 <= i < |a| ==> MethodNameAsWritten(a[i]) != name
    requires forall i :: 0 <= i < |b| ==> MethodNameAsWritten(b[i]) != name
    ensures LookupAsWritten(a + b, name) == None
  {
    forall i | 0 <= i < |a + b| ensures MethodNameAsWritten((a + b)[i]) != name {
      if i >= |a| {
        assert (a + b)[i] == b[i - |a|];
      }
    }
  }

  /** On such an engine every built-in tag method is named `curryFunc`. */
  lemma BuiltinNamesAsWritten()
    ensures forall i :: 0 <= i < |BuiltinTagFs()| ==> MethodNameAsWritten(BuiltinTagFs()[i]) == "curryFunc"
    ensures "curryFunc" != "startParallel"
    ensures LookupAsWritten(BuiltinTagFs(), "curryFunc") == Some(StopMethod("Which"))
  {
    assert forall i :: 0 <= i < |BuiltinTagFs()| ==> !BuiltinTagFs()[i].Curried?;
    assert "curryFunc"[0] != "startParallel"[0];
  }

  /**
   * On such an engine all built-in tag methods share one name, and none of
   * them is `startParallel`: on a pipe whose other methods are not named
   * `startParallel` either, `pipe.startParallel` is not a method, and the
   * one name left for the built-in tags reaches only `stopWhich`.
   */
  lemma TagMethodsHiddenAsWritten(rest: seq<Curry>)
    requires forall i :: 0 <= i < |rest| ==> MethodNameAsWritten(rest[i]) != "startParallel"
    ensures forall i, j :: 0 <= i < |BuiltinTagFs()| && 0 <= j < |BuiltinTagFs()| ==>
              MethodNameAsWritten(BuiltinTagFs()[i]) == MethodNameAsWritten(BuiltinTagFs()[j])
    ensures forall i :: 0 <= i < |BuiltinTagFs()| ==> MethodNameAsWritten(BuiltinTagFs()[i]) != "startParallel"
    ensures LookupAsWritten(BuiltinTagFs() + rest, "startParallel") == None
    ensures LookupAsWritten(BuiltinTagFs(), "curryFunc") == Some(StopMethod("Which"))
  {
    BuiltinNamesAsWritten();
    AbsentAsWritten(BuiltinTagFs(), rest, "startParallel");
  }

  /**
   * Invoking `start<Tag>(...args)` and `stop<Tag>(...)` around a region
   * stages a pair of markers that resolution matches: the replace function
   * gets the region and exactly the start call's arguments as its params,
   * and the stop call's arguments play no part.
   */
  lemma InvokedRegion(tag: string, t: Transform, args: seq<Arg>, stopArgs: seq<Arg>,
                      pre: seq<Step>, inner: seq<Step>, post: seq<Step>)
    requires tag != ""
    requires NoMarkers(pre) && NoMarkers(inner) && NoMarkers(post)
    requires NoMissing(pre) && NoMissing(inner) && NoMissing(post)
    ensures Resolution(pre + [Instantiate(StartMethod(tag, t), args)] + inner + [Instantiate(StopMethod(tag), stopArgs)] + post)
         == if NoMissing(Replace(t, inner, args))
            then Success(pre + Replace(t, inner, args) + post)
            else Failure(NotCallable)
  {
    SingleRegion(pre, inner, post, tag, args, t);
  }

  class Pipe {
    var curryFs: seq<Curry>
    var composeFs: seq<Step>
    var input: Value

    /** Every method of the built-in tags can be invoked on the pipe. */
    ghost predicate OffersBuiltinTags()
      reads this
    {
      forall i :: 0 <= i < |BuiltinTagFs()| ==> Lookup(curryFs, MethodName(BuiltinTagFs()[i])).Some?
    }

    /** makePipe: the parent's currying functions and staged list, plus fresh built-in tags. */
    constructor (parentCurryFs: seq<Curry>, parentComposeFs: seq<Step>)
      ensures curryFs == parentCurryFs + BuiltinTagFs()
      ensures composeFs == parentComposeFs && input == Null
      ensures OffersBuiltinTags()
    {
      curryFs := parentCurryFs + BuiltinTagFs();
      composeFs := parentComposeFs;
      input := Null;
      new;
      forall i | 0 <= i < |BuiltinTagFs()|
        ensures Lookup(curryFs, MethodName(BuiltinTagFs()[i])).Some?
      {
        var name := MethodName(BuiltinTagFs()[i]);
        assert MethodName(BuiltinTagFs()[i]) == name;
        LookupAppend(parentCurryFs, BuiltinTagFs(), name);
      }
    }

    /** methodize: register currying functions as chainable methods. */
    method Methodize(newCurryFs: seq<Curry>)
      requires OffersBuiltinTags()
      modifies this
      ensures curryFs == old(curryFs) + newCurryFs
      ensures composeFs == old(composeFs) && input == old(input)
      ensures OffersBuiltinTags()
    {
      curryFs := curryFs + newCurryFs;
      forall i | 0 <= i < |BuiltinTagFs()|
        ensures Lookup(curryFs, MethodName(BuiltinTagFs()[i])).Some?
      {
        LookupAppend(old(curryFs), newCurryFs, MethodName(BuiltinTagFs()[i]));
      }
    }

    /** tagize: register the start and stop methods of more tags; an empty name throws first. */
    method Tagize(tags: seq<(string, Transform)>) returns (err: Option<Error>)
      requires OffersBuiltinTags()
      modifies this
      ensures MakeTagFs(tags).Success? ==> err == None && curryFs == old(curryFs) + MakeTagFs(tags).value
      ensures MakeTagFs(tags).Failure? ==> err == Some(NotCallable) && curryFs == old(curryFs)
      ensures composeFs == old(composeFs) && input == old(input)
      ensures OffersBuiltinTags()
    {
      var tagFuncs := MakeTagFs(tags);
      if tagFuncs.Failure? {
        return Some(tagFuncs.error);
      }
      Methodize(tagFuncs.value);
      err := None;
    }

    /** c: stage a composable function directly. */
    method C(f: Step)
      modifies this
      ensures composeFs == old(composeFs) + [f]
      ensures curryFs == old(curryFs) && input == old(input)
    {
      composeFs := composeFs + [f];
    }

    /** in: set the pending input, any time before a run. */
    method In(value: Value)
      modifies this
      ensures input == value
      ensures composeFs == old(composeFs) && curryFs == old(curryFs)
    {
      input := value;
    }

    /**
     * A chained method call: the method the name reaches stages what its
     * currying function returns for the arguments; a name no method has
     * throws "Method not added to pipe".
     */
    method Invoke(name: string, args: seq<Arg>) returns (err: Option<Error>)
      modifies this
      ensures Lookup(curryFs, name).Some? ==>
                err == None && composeFs == old(composeFs) + [Instantiate(Lookup(curryFs, name).value, args)]
      ensures Lookup(curryFs, name).None? ==> err == Some(MethodNotAdded(name)) && composeFs == old(composeFs)
      ensures curryFs == old(curryFs) && input == old(input)
    {
      var found := Lookup(curryFs, name);
      if found.None? {
        return Some(MethodNotAdded(name));
      }
      composeFs := composeFs + [Instantiate(found.value, args)];
      err := None;
    }

    /** exec: a run of the staged list as it stands now, from `initValue`. */
    method Exec(initValue: Value) returns (out: Outcome)
      ensures out == Run(composeFs, initValue)
    {
      out := Compose(composeFs, initValue);
    }

    /** out: a run from the pending input. */
    method Out() returns (out: Outcome)
      ensures out == Run(composeFs, input)
    {
      out := Exec(input);
    }

    /** clone: a new pipe with copies of both lists and no input. */
    method Clone() returns (p: Pipe)
      ensures fresh(p)
      ensures p.curryFs == curryFs + BuiltinTagFs() && p.composeFs == composeFs && p.input == Null
      ensures p.OffersBuiltinTags()
    {
      p := new Pipe(curryFs, composeFs);
    }

    /** clear: empty the staged list; the registered methods stay. */
    method Clear()
      modifies this
      ensures composeFs == []
      ensures curryFs == old(curryFs) && input == old(input)
    {
      composeFs := [];
    }
  }
}
