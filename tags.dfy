/**
 * Tag resolution: the rewrite that runs over a snapshot of the staged list
 * right before a run, replacing every start/stop region by what the start
 * marker's replace function makes of the steps inside it.
 */
module Tags {
  import opened Wrappers
  import opened Values
  import opened Steps
  import opened Transforms

  /**
   * makeNodes. A node records whether its function is a start or a stop
   * marker, and its tag; here that record is the step itself, read through
   * IsBegin and IsEnd. Reading `_tag` of an entry that is not a function
   * throws a TypeError.
   */
  function MakeNodes(fs: seq<Step>): (r: Result<seq<Step>, Error>)
    ensures r.Success? <==> NoMissing(fs)
    ensures r.Success? ==> r.value == fs
    ensures r.Failure? ==> r.error == NotCallable
  {
    if NoMissing(fs) then Success(fs) else Failure(NotCallable)
  }

  /** The number of stop markers. */
  function StopCount(ns: seq<Step>): nat
  {
    if ns == [] then 0 else (if IsEnd(ns[0]) then 1 else 0) + StopCount(ns[1..])
  }

  lemma {:induction false} StopCountConcat(a: seq<Step>, b: seq<Step>)
    ensures StopCount(a + b) == StopCount(a) + StopCount(b)
  {
    if a == [] {
      assert a + b == b;
    } else {
      assert (a + b)[1..] == a[1..] + b;
      StopCountConcat(a[1..], b);
    }
  }

  lemma {:induction false} NoEndsNoStops(a: seq<Step>)
    requires NoEnds(a)
    ensures StopCount(a) == 0
  {
    if a != [] {
      NoEndsNoStops(a[1..]);
    }
  }

  /** `nodes.findIndex(node => node.begin === false)`: the leftmost stop marker, or -1. */
  function FirstEnd(ns: seq<Step>): (c: int)
    ensures -1 <= c < |ns|
    ensures c >= 0 ==> IsEnd(ns[c]) && NoEnds(ns[..c])
    ensures c < 0 <==> NoEnds(ns)
  {
    if ns == [] then -1
    else if IsEnd(ns[0]) then 0
    else
      var c := FirstEnd(ns[1..]);
      if c < 0 then -1
      else
        assert ns[..c + 1] == [ns[0]] + ns[1..][..c];
        c + 1
  }

  /**
   * The nearest start marker with tag `tag` before position `c`, or -1;
   * start markers of other tags are passed over.
   */
  function NearestBegin(ns: seq<Step>, c: nat, tag: string): (j: int)
    requires c <= |ns|
    ensures -1 <= j < c
    ensures j >= 0 ==> IsBegin(ns[j]) && ns[j].tag == tag
    ensures forall k :: j < k < c ==> !(IsBegin(ns[k]) && ns[k].tag == tag)
  {
    if c == 0 then -1
    else if IsBegin(ns[c - 1]) && ns[c - 1].tag == tag then c - 1
    else NearestBegin(ns, c - 1, tag)
  }

  /** The backward scan of applyTags from the stop marker at `c`. */
  method FindBegin(ns: seq<Step>, c: nat) returns (j: int)
    requires c < |ns| && IsEnd(ns[c])
    ensures j == NearestBegin(ns, c, ns[c].tag)
  {
    var stopNode := ns[c];
    j := -1;
    var i := c - 1;
    while i > -1
      invariant -1 <= i < c
      invariant NearestBegin(ns, c, stopNode.tag) == NearestBegin(ns, i + 1, stopNode.tag)
    {
      var node := ns[i];
      if IsBegin(node) && node.tag == stopNode.tag {
        j := i;
        return;
      }
      i := i - 1;
    }
  }

  /**
   * One round of applyTags: the start marker at `j`, the stop marker at
   * `c` and everything between them give way to what the start marker's
   * replace function returns for the entries strictly between the two.
   */
  function Rewrite(ns: seq<Step>, j: nat, c: nat): Result<seq<Step>, Error>
    requires j < c < |ns| && ns[j].StartTag?
  {
    match MakeNodes(Replace(ns[j].replace, ns[j + 1..c], ns[j].params))
    case Failure(e) => Failure(e)
    case Success(mid) => Success(ns[..j] + mid + ns[c + 1..])
  }

  /** replaceNodes, splice by splice, on the node list. */
  method ReplaceNodes(ns: seq<Step>, j: nat, c: nat) returns (r: Result<seq<Step>, Error>)
    requires j < c < |ns| && IsBegin(ns[j]) && IsEnd(ns[c])
    ensures r == Rewrite(ns, j, c)
  {
    var startNode := ns[j];
    var start := j;
    var stop := c;
    var nodes := ns[..start] + ns[start + 1..];
    stop := stop - 1;
    nodes := nodes[..stop] + nodes[stop + 1..];
    assert nodes == ns[..j] + ns[j + 1..c] + ns[c + 1..];
    var innerNodes := nodes[start..stop];
    nodes := nodes[..start] + nodes[stop..];
    assert innerNodes == ns[j + 1..c];
    assert nodes == ns[..j] + ns[c + 1..];
    var replaced := RunReplace(startNode.replace, innerNodes, startNode.params);
    var made := MakeNodes(replaced);
    if made.Failure? {
      return Failure(made.error);
    }
    nodes := nodes[..start] + made.value + nodes[start..];
    assert nodes == ns[..j] + made.value + ns[c + 1..];
    r := Success(nodes);
  }

  /**
   * A round removes exactly one stop marker: the one at `c`. The start
   * marker it removes is not one, the region before the leftmost stop
   * marker holds none, and no replace function makes one.
   */
  lemma RewriteRemovesOneStop(ns: seq<Step>, j: nat, c: nat)
    requires j < c < |ns| && IsBegin(ns[j]) && IsEnd(ns[c]) && NoEnds(ns[..c])
    requires Rewrite(ns, j, c).Success?
    ensures StopCount(Rewrite(ns, j, c).value) == StopCount(ns) - 1
  {
    var inner := ns[j + 1..c];
    var mid := Replace(ns[j].replace, inner, ns[j].params);
    assert NoEnds(inner) by {
      forall k | 0 <= k < |inner| ensures !IsEnd(inner[k]) {
        assert inner[k] == ns[..c][j + 1 + k];
      }
    }
    ReplaceNoEnds(ns[j].replace, inner, ns[j].params);
    NoEndsNoStops(mid);
    assert NoEnds(ns[..j]) by {
      assert forall k :: 0 <= k < j ==> ns[..j][k] == ns[..c][k];
    }
    NoEndsNoStops(ns[..j]);
    StopCountSplit(ns, c);
    StopCountConcat(ns[..j] + mid, ns[c + 1..]);
    StopCountConcat(ns[..j], mid);
  }

  /** Splitting at a stop marker preceded by no other: one stop before what follows it. */
  lemma StopCountSplit(ns: seq<Step>, c: nat)
    requires c < |ns| && IsEnd(ns[c]) && NoEnds(ns[..c])
    ensures StopCount(ns) == 1 + StopCount(ns[c + 1..])
  {
    NoEndsNoStops(ns[..c]);
    assert ns == ns[..c] + ([ns[c]] + ns[c + 1..]);
    StopCountConcat(ns[..c], [ns[c]] + ns[c + 1..]);
    assert ([ns[c]] + ns[c + 1..])[1..] == ns[c + 1..];
  }

  /**
   * The loop of applyTags: rewrite the region closed by the leftmost stop
   * marker until none is left, or fail when a stop marker has no start
   * marker before it.
   */
  function Resolve(ns: seq<Step>): (r: Result<seq<Step>, Error>)
    ensures r.Success? ==> NoEnds(r.value)
    ensures r.Success? && NoMissing(ns) ==> NoMissing(r.value)
    ensures r.Failure? ==> r.error.NoBeginTag? || r.error == NotCallable
    decreases StopCount(ns)
  {
    var c := FirstEnd(ns);
    if c < 0 then Success(ns)
    else
      var j := NearestBegin(ns, c, ns[c].tag);
      if j < 0 then Failure(NoBeginTag(ns[c].tag))
      else
        match Rewrite(ns, j, c)
        case Failure(e) => Failure(e)
        case Success(next) =>
          RewriteRemovesOneStop(ns, j, c);
          assert NoMissing(ns) ==> NoMissing(next);
          Resolve(next)
  }

  /** The final map of applyTags: any node still tagged throws, the first one first. */
  function Unmark(ns: seq<Step>): (r: Result<seq<Step>, Error>)
    ensures r.Success? <==> NoMarkers(ns)
    ensures r.Success? ==> r.value == ns
    ensures r.Failure? ==> r.error.TagNotParsedOut?
  {
    if ns == [] then Success([])
    else if Tagged(ns[0]) then Failure(TagNotParsedOut(ns[0].tag))
    else
      match Unmark(ns[1..])
      case Failure(e) => Failure(e)
      case Success(rest) =>
        assert ns == [ns[0]] + ns[1..];
        Success([ns[0]] + rest)
  }

  /** The error names the tag of the first node still tagged. */
  lemma {:induction false} UnmarkReportsFirst(ns: seq<Step>, k: nat)
    requires k < |ns| && Tagged(ns[k]) && NoMarkers(ns[..k])
    ensures Unmark(ns) == Failure(TagNotParsedOut(ns[k].tag))
  {
    if k > 0 {
      assert ns[..k][0] == ns[0];
      assert ns[1..][..k - 1] == ns[..k][1..];
      UnmarkReportsFirst(ns[1..], k - 1);
    }
  }

  /** applyTags as a whole: the staged list resolved into plain steps, or the error it throws. */
  function Resolution(staged: seq<Step>): (r: Result<seq<Step>, Error>)
    ensures r.Success? ==> NoMarkers(r.value) && NoMissing(r.value)
    ensures r.Failure? ==> r.error.NoBeginTag? || r.error.TagNotParsedOut? || r.error == NotCallable
  {
    match MakeNodes(staged)
    case Failure(e) => Failure(e)
    case Success(ns) =>
      match Resolve(ns)
      case Failure(e) => Failure(e)
      case Success(done) => Unmark(done)
  }

  /** applyTags, with its loop and its in-place rewrites of the node list. */
  method ApplyTags(funcs: seq<Step>) returns (r: Result<seq<Step>, Error>)
    ensures r == Resolution(funcs)
  {
    var made := MakeNodes(funcs);
    if made.Failure? {
      return Failure(made.error);
    }
    var nodes := made.value;
    var firstEndToken := FirstEnd(nodes);
    while firstEndToken > -1
      invariant firstEndToken == FirstEnd(nodes)
      invariant Resolve(nodes) == Resolve(made.value)
      decreases StopCount(nodes)
    {
      var startNode := FindBegin(nodes, firstEndToken);
      if startNode >= 0 {
        var next := ReplaceNodes(nodes, startNode, firstEndToken);
        if next.Failure? {
          return Failure(next.error);
        }
        RewriteRemovesOneStop(nodes, startNode, firstEndToken);
        nodes := next.value;
        firstEndToken := FirstEnd(nodes);
      } else {
        return Failure(NoBeginTag(nodes[firstEndToken].tag));
      }
    }
    r := Unmark(nodes);
  }

  /** The leftmost stop marker is the one at `c` exactly when none comes before it. */
  lemma FirstEndAt(ns: seq<Step>, c: nat)
    requires c < |ns| && IsEnd(ns[c]) && NoEnds(ns[..c])
    ensures FirstEnd(ns) == c
  {
  }

  /** A list without markers and without undefined entries resolves to itself. */
  lemma MarkerFreeIsFixed(fs: seq<Step>)
    requires NoMarkers(fs) && NoMissing(fs)
    ensures Resolution(fs) == Success(fs)
  {
    assert NoEnds(fs);
    assert FirstEnd(fs) < 0;
  }

  /**
   * A stop marker with no start marker of its tag before it, and no stop
   * marker before it, makes resolution throw "No begin tag" for its tag.
   */
  lemma UnmatchedStop(fs: seq<Step>, c: nat)
    requires NoMissing(fs)
    requires c < |fs| && IsEnd(fs[c]) && NoEnds(fs[..c])
    requires forall k :: 0 <= k < c ==> !(IsBegin(fs[k]) && fs[k].tag == fs[c].tag)
    ensures Resolution(fs) == Failure(NoBeginTag(fs[c].tag))
  {
    FirstEndAt(fs, c);
    assert NearestBegin(fs, c, fs[c].tag) < 0;
  }

  /**
   * Once the loop has rewritten every region it can, whatever marker is
   * left is a start marker, and the first one left is reported as "Tag not
   * parsed out".
   */
  lemma LeftoverStart(fs: seq<Step>, done: seq<Step>, k: nat)
    requires NoMissing(fs) && Resolve(fs) == Success(done)
    requires k < |done| && Tagged(done[k]) && NoMarkers(done[..k])
    ensures IsBegin(done[k])
    ensures Resolution(fs) == Failure(TagNotParsedOut(done[k].tag))
  {
    UnmarkReportsFirst(done, k);
  }

  /** A list without stop markers is left as it is by the loop. */
  lemma NoEndsUnchanged(fs: seq<Step>)
    requires NoEnds(fs)
    ensures Resolve(fs) == Success(fs)
  {
    assert FirstEnd(fs) < 0;
  }

  lemma NoMarkersConcat(a: seq<Step>, b: seq<Step>)
    requires NoMarkers(a) && NoMarkers(b)
    ensures NoMarkers(a + b)
  {
    forall k | 0 <= k < |a + b| ensures !Tagged((a + b)[k]) {
      if k >= |a| { assert (a + b)[k] == b[k - |a|]; }
    }
  }

  /** Where the markers of a single region stand. */
  lemma RegionMarkers(pre: seq<Step>, inner: seq<Step>, post: seq<Step>, tag: string, params: seq<Arg>, t: Transform)
    requires tag != "" && NoEnds(pre) && NoMarkers(inner)
    ensures var ns := pre + [StartTag(tag, params, t)] + inner + [StopTag(tag)] + post;
            var c := |pre| + 1 + |inner|;
            FirstEnd(ns) == c && NearestBegin(ns, c, tag) == |pre|
  {
    var ns := pre + [StartTag(tag, params, t)] + inner + [StopTag(tag)] + post;
    var j, c := |pre|, |pre| + 1 + |inner|;
    assert ns[..c] == pre + [StartTag(tag, params, t)] + inner;
    assert NoEnds(ns[..c]) by {
      forall k | 0 <= k < c ensures !IsEnd(ns[..c][k]) {
        if k < j { assert ns[..c][k] == pre[k]; }
        else if k > j { assert ns[..c][k] == inner[k - j - 1]; }
      }
    }
    FirstEndAt(ns, c);
    var b := NearestBegin(ns, c, tag);
    assert b == j by {
      assert ns[j] == StartTag(tag, params, t);
    }
  }

  /** Resolution of a list whose leftmost stop marker has a start marker: one round, then the rest. */
  lemma OneRound(ns: seq<Step>, j: nat, c: nat)
    requires NoMissing(ns) && c == FirstEnd(ns) && j == NearestBegin(ns, c, ns[c].tag)
    ensures Resolution(ns) == match Rewrite(ns, j, c)
                              case Failure(e) => Failure(e)
                              case Success(next) => Resolution(next)
  {
    assert MakeNodes(ns) == Success(ns);
    match Rewrite(ns, j, c)
    case Failure(e) =>
    case Success(next) =>
      RewriteNoMissing(ns, j, c);
      assert MakeNodes(next) == Success(next);
  }

  /** A rewrite of a list with no undefined entry has none either. */
  lemma RewriteNoMissing(ns: seq<Step>, j: nat, c: nat)
    requires j < c < |ns| && ns[j].StartTag? && NoMissing(ns)
    requires Rewrite(ns, j, c).Success?
    ensures NoMissing(Rewrite(ns, j, c).value)
  {
    var mid := Replace(ns[j].replace, ns[j + 1..c], ns[j].params);
    var next := Rewrite(ns, j, c).value;
    assert next == ns[..j] + mid + ns[c + 1..];
    forall k | 0 <= k < |next| ensures !next[k].Missing? {
      if k < j { assert next[k] == ns[k]; }
      else if k < j + |mid| { assert next[k] == mid[k - j]; }
      else { assert next[k] == ns[k - j - |mid| + c + 1]; }
    }
  }

  /**
   * Regions resolve innermost first: a region with no marker inside it and
   * no stop marker before it is replaced by what its replace function
   * returns for exactly the steps between its markers, in order, before
   * any region around it or after it is looked at; the replacement throws
   * a TypeError when it holds an entry that is not a function.
   */
  lemma InnermostFirst(pre: seq<Step>, inner: seq<Step>, post: seq<Step>, tag: string, params: seq<Arg>, t: Transform)
    requires tag != ""
    requires NoEnds(pre) && NoMarkers(inner)
    requires NoMissing(pre) && NoMissing(inner) && NoMissing(post)
    ensures Resolution(pre + [StartTag(tag, params, t)] + inner + [StopTag(tag)] + post)
         == if NoMissing(Replace(t, inner, params))
            then Resolution(pre + Replace(t, inner, params) + post)
            else Failure(NotCallable)
  {
    var ns := pre + [StartTag(tag, params, t)] + inner + [StopTag(tag)] + post;
    var j, c := |pre|, |pre| + 1 + |inner|;
    RegionMarkers(pre, inner, post, tag, params, t);
    assert NoMissing(ns) by {
      forall k | 0 <= k < |ns| ensures !ns[k].Missing? {
        if k < j { assert ns[k] == pre[k]; }
        else if j < k < c { assert ns[k] == inner[k - j - 1]; }
        else if k > c { assert ns[k] == post[k - c - 1]; }
      }
    }
    assert ns[..j] == pre;
    assert ns[j + 1..c] == inner;
    assert ns[c + 1..] == post;
    OneRound(ns, j, c);
  }

  /**
   * A single region among plain steps: resolution hands the replace
   * function exactly the steps between the two markers, in order, and puts
   * what it returns where the region was, leaving the steps before and
   * after as they were.
   */
  lemma SingleRegion(pre: seq<Step>, inner: seq<Step>, post: seq<Step>, tag: string, params: seq<Arg>, t: Transform)
    requires tag != ""
    requires NoMarkers(pre) && NoMarkers(inner) && NoMarkers(post)
    requires NoMissing(pre) && NoMissing(inner) && NoMissing(post)
    ensures Resolution(pre + [StartTag(tag, params, t)] + inner + [StopTag(tag)] + post)
         == if NoMissing(Replace(t, inner, params))
            then Success(pre + Replace(t, inner, params) + post)
            else Failure(NotCallable)
  {
    InnermostFirst(pre, inner, post, tag, params, t);
    var replaced := Replace(t, inner, params);
    if NoMissing(replaced) {
      ReplaceNoMarkers(t, inner, params);
      PlainSplice(pre, replaced, post);
    }
  }

  /** Three marker-free lists of functions, one after the other, resolve to themselves. */
  lemma PlainSplice(pre: seq<Step>, mid: seq<Step>, post: seq<Step>)
    requires NoMarkers(pre) && NoMarkers(mid) && NoMarkers(post)
    requires NoMissing(pre) && NoMissing(mid) && NoMissing(post)
    ensures Resolution(pre + mid + post) == Success(pre + mid + post)
  {
    var all := pre + mid + post;
    NoMarkersConcat(pre, mid);
    NoMarkersConcat(pre + mid, post);
    assert NoMissing(all) by {
      forall k | 0 <= k < |all| ensures !all[k].Missing? {
        if k < |pre| { assert all[k] == pre[k]; }
        else if k < |pre| + |mid| { assert all[k] == mid[k - |pre|]; }
        else { assert all[k] == post[k - |pre| - |mid|]; }
      }
    }
    MarkerFreeIsFixed(all);
  }
}
