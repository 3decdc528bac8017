/** `CompositeAudioPipeline`: an ordered array of nodes wired into a serial chain, each non-null
    node taking the nearest non-null node before it as its upstream; the pipeline's output is the
    array's last element. */
module CompositePipeline {
  import opened Common
  import opened Audio
  import opened AudioNodes

  /** The non-null entries of a node array, in order. */
  function NonNull(nodes: seq<BaseAudioNode?>): (r: seq<BaseAudioNode>)
    ensures |r| <= |nodes|
    decreases |nodes|
  {
    if nodes == [] then []
    else
      var rest := NonNull(nodes[..|nodes| - 1]);
      var n := nodes[|nodes| - 1];
      if n == null then rest else rest + [n]
  }

  /** Every entry of `NonNull(nodes)` is taken from `nodes`. */
  lemma {:induction false} NonNullFrom(nodes: seq<BaseAudioNode?>)
    ensures forall i :: 0 <= i < |NonNull(nodes)| ==> NonNull(nodes)[i] in nodes
    decreases |nodes|
  {
    if nodes != [] {
      var init := nodes[..|nodes| - 1];
      NonNullFrom(init);
      assert forall x :: x in init ==> x in nodes;
    }
  }

  /** Each non-null node's upstream is the nearest non-null node before it, the first one's is
      null; where a node is listed twice, its last occurrence decides. */
  ghost predicate WiredAs(nn: seq<BaseAudioNode>)
    reads nn
  {
    forall k :: 0 <= k < |nn| ==> WiredIndex(nn, k)
  }

  /** The node at `k`, unless listed again later, is wired to the one before it. */
  ghost predicate WiredIndex(nn: seq<BaseAudioNode>, k: int)
    reads nn
    requires 0 <= k < |nn|
  {
    LastOccurrence(nn, k) ==> nn[k].upstream == if k == 0 then NoObject else PipelineNode(nn[k - 1])
  }

  ghost predicate LastOccurrence(nn: seq<BaseAudioNode>, k: int)
    requires 0 <= k < |nn|
  {
    forall j :: k < j < |nn| ==> nn[j] != nn[k]
  }

  /** No node is listed twice. */
  ghost predicate Distinct(nn: seq<BaseAudioNode>) {
    forall i, j :: 0 <= i < j < |nn| ==> nn[i] != nn[j]
  }

  /** The chain read back from the last node: the non-null nodes, newest first. */
  function Reversed(nn: seq<BaseAudioNode>): (r: seq<BaseAudioNode>)
    ensures |r| == |nn| && forall i :: 0 <= i < |nn| ==> r[i] == nn[|nn| - 1 - i]
  {
    seq(|nn|, i requires 0 <= i < |nn| => nn[|nn| - 1 - i])
  }

  /** With every node listed once, the wiring makes the last node's upstream chain the non-null
      nodes in reverse order, ending at the first one, whose upstream is null. */
  lemma WiredChain(nn: seq<BaseAudioNode>)
    requires |nn| >= 1 && WiredAs(nn) && Distinct(nn)
    ensures IsChain(Reversed(nn)) && Reversed(nn)[0] == nn[|nn| - 1]
    ensures Last(Reversed(nn)).upstream == NoObject
  {
    var c := Reversed(nn);
    forall k | 0 <= k < |nn|
      ensures nn[k].upstream == if k == 0 then NoObject else PipelineNode(nn[k - 1])
    {
      assert LastOccurrence(nn, k);
      WiredAt(nn, k);
    }
    forall i | 0 <= i < |c| - 1
      ensures c[i].upstream == PipelineNode(c[i + 1])
    {
      assert c[i] == nn[|nn| - 1 - i] && c[i + 1] == nn[|nn| - 1 - i - 1];
    }
    assert LastOccurrence(nn, 0);
    WiredAt(nn, 0);
    assert Last(c) == nn[0];
  }

  lemma WiredAt(nn: seq<BaseAudioNode>, k: int)
    requires WiredAs(nn) && 0 <= k < |nn| && LastOccurrence(nn, k)
    ensures nn[k].upstream == if k == 0 then NoObject else PipelineNode(nn[k - 1])
  {
    assert WiredIndex(nn, k);
  }

  class CompositeAudioPipeline {
    /** The serialized `nodes` array; a null array is the empty one. */
    var nodes: seq<BaseAudioNode?>

    constructor (ns: seq<BaseAudioNode?>)
      ensures nodes == ns
    {
      nodes := ns;
    }

    /** `GetLastNode`: null for an empty array, otherwise its last element, which may be null. */
    function GetLastNode(): (r: BaseAudioNode?)
      reads this
      ensures |nodes| == 0 ==> r == null
      ensures |nodes| > 0 ==> r == nodes[|nodes| - 1]
      ensures r != null ==> |NonNull(nodes)| > 0 && r == Last(NonNull(nodes))
    {
      if |nodes| == 0 then null else nodes[|nodes| - 1]
    }

    /** `isFinite`: false with no last node, otherwise the last node's (read along `chain`). */
    function IsFinite(chain: seq<BaseAudioNode>): (r: bool)
      reads this, chain
      requires GetLastNode() != null ==> IsChain(chain) && chain[0] == GetLastNode()
      ensures GetLastNode() == null ==> !r
      ensures GetLastNode() != null ==> r == GetLastNode().IsFinite(chain)
    {
      var last := GetLastNode();
      last != null && last.IsFinite(chain)
    }

    /** `length`: null with no last node, otherwise the last node's. */
    function Length(chain: seq<BaseAudioNode>): (r: Option<int>)
      reads this, chain
      requires GetLastNode() != null ==> IsChain(chain) && chain[0] == GetLastNode()
      ensures GetLastNode() == null ==> r == None
      ensures GetLastNode() != null ==> r == GetLastNode().Length(chain)
    {
      var last := GetLastNode();
      if last == null then None else last.Length(chain)
    }

    /** Once the array is wired, the chain behind the last node ends at the first non-null node,
        whose upstream is null: a wired pipeline is never finite and has no length. */
    lemma WiredIsNotFinite()
      requires GetLastNode() != null && WiredAs(NonNull(nodes)) && Distinct(NonNull(nodes))
      ensures IsChain(Reversed(NonNull(nodes))) && Reversed(NonNull(nodes))[0] == GetLastNode()
      ensures !IsFinite(Reversed(NonNull(nodes))) && Length(Reversed(NonNull(nodes))) == None
    {
      WiredChain(NonNull(nodes));
    }

    ghost function Nodes(): set<BaseAudioNode>
      reads this
    {
      set n: BaseAudioNode | n in nodes
    }

    /** `WireUpstream`: one pass with a running `prev`, skipping null entries. What it leaves
        depends only on the array, so a second call changes nothing. */
    method WireUpstream()
      modifies Nodes()
      ensures WiredAs(NonNull(nodes))
    {
      var ns := nodes;
      var prev: BaseAudioNode? := null;
      ghost var wired: seq<BaseAudioNode> := [];
      var i := 0;
      while i < |ns|
        invariant 0 <= i <= |ns| && wired == NonNull(ns[..i])
        invariant prev == if wired == [] then null else Last(wired)
        invariant WiredAs(wired)
      {
        assert ns[..i + 1][..i] == ns[..i];
        var n := ns[i];
        if n != null {
          Link(n, prev, wired);
          prev := n;
          wired := wired + [n];
        }
        i := i + 1;
      }
      assert ns[..|ns|] == ns;
    }

    /** `CreateInstance`: nothing without a last node; otherwise the array is wired first and the
        last node's instance is created, which creates the whole chain behind it. A node listed
        twice would close a cycle and the recursive creation would not end, so when there is a
        last node every node is required to be listed once. */
    method CreateInstance(ctx: Context, nested: Option<AudioFormat>, defaultNested: AudioFormat) returns (h: Instance)
      requires GetLastNode() != null ==>
                 forall i, j :: 0 <= i < j < |nodes| && nodes[i] != null ==> nodes[i] != nodes[j]
      modifies ctx`generators, Nodes()
      ensures GetLastNode() == null ==> h == Null && ctx.generators == old(ctx.generators)
      ensures GetLastNode() != null ==>
                WiredAs(NonNull(nodes)) && IsChain(Reversed(NonNull(nodes)))
                && ctx.generators == old(ctx.generators)
                     + Allocations(Reversed(NonNull(nodes)), nested, defaultNested, |old(ctx.generators)|)
                && h == Handle(|ctx.generators| - 1)
    {
      var last := GetLastNode();
      if last == null {
        return Null;
      }
      ghost var ns := nodes;
      NonNullDistinct(ns);
      WireUpstream();
      assert nodes == ns;
      h := CreateWired(last, ctx, nested, defaultNested, NonNull(ns));
    }

    /** Once wired, creating the last node's instance creates the whole chain behind it. */
    method CreateWired(last: BaseAudioNode, ctx: Context, nested: Option<AudioFormat>, defaultNested: AudioFormat,
                       ghost nn: seq<BaseAudioNode>)
      returns (h: Instance)
      requires last == GetLastNode() && nn == NonNull(nodes) && WiredAs(nn) && Distinct(nn)
      modifies ctx`generators
      ensures WiredAs(nn) && IsChain(Reversed(nn))
      ensures ctx.generators == old(ctx.generators) + Allocations(Reversed(nn), nested, defaultNested, |old(ctx.generators)|)
      ensures h == Handle(|ctx.generators| - 1)
    {
      WiredChain(nn);
      ghost var expected := Allocations(Reversed(nn), nested, defaultNested, |ctx.generators|);
      h := last.CreateInstance(ctx, nested, defaultNested, Reversed(nn));
      assert Allocations(Reversed(nn), nested, defaultNested, |old(ctx.generators)|) == expected;
    }
  }

  /** One step of the wiring: `n` takes `prev`, the last node wired so far, as its upstream. */
  method Link(n: BaseAudioNode, prev: BaseAudioNode?, ghost before: seq<BaseAudioNode>)
    requires WiredAs(before) && prev == (if before == [] then null else Last(before))
    modifies n`upstream
    ensures WiredAs(before + [n])
  {
    n.upstream := if prev == null then NoObject else PipelineNode(prev);
    forall k | 0 <= k < |before| && LastOccurrence(before + [n], k)
      ensures before[k].upstream == if k == 0 then NoObject else PipelineNode(before[k - 1])
    {
      LastOccurrencePrefix(before, n, k);
      assert old(WiredIndex(before, k));
    }
    WiredSnoc(before, n);
  }

  /** Appending a node wired to the previous last one, where the others are wired as before
      (those that the new node does not repeat), wires the longer list. */
  lemma WiredSnoc(nn: seq<BaseAudioNode>, n: BaseAudioNode)
    requires WiredBefore(nn, n)
    requires n.upstream == if nn == [] then NoObject else PipelineNode(Last(nn))
    ensures WiredAs(nn + [n])
  {
    var m := nn + [n];
    forall k | 0 <= k < |m|
      ensures WiredIndex(m, k)
    {
      if k < |nn| && LastOccurrence(m, k) {
        assert m[k] == nn[k];
        WiredBeforeAt(nn, n, k);
        if k > 0 {
          assert m[k - 1] == nn[k - 1];
        }
      } else if k == |nn| {
        assert m[k] == n;
        if k > 0 {
          assert m[k - 1] == Last(nn);
        }
      }
    }
  }

  /** The nodes of `nn` that `n` does not repeat are wired as in `nn`. */
  ghost predicate WiredBefore(nn: seq<BaseAudioNode>, n: BaseAudioNode)
    reads nn
  {
    forall k :: 0 <= k < |nn| && LastOccurrence(nn + [n], k) ==>
      nn[k].upstream == if k == 0 then NoObject else PipelineNode(nn[k - 1])
  }

  lemma WiredBeforeAt(nn: seq<BaseAudioNode>, n: BaseAudioNode, k: int)
    requires WiredBefore(nn, n) && 0 <= k < |nn| && LastOccurrence(nn + [n], k)
    ensures nn[k].upstream == if k == 0 then NoObject else PipelineNode(nn[k - 1])
  {
  }

  /** A last occurrence in `nn + [n]` is one in `nn` too, and is not `n`. */
  lemma LastOccurrencePrefix(nn: seq<BaseAudioNode>, n: BaseAudioNode, k: int)
    requires 0 <= k < |nn| && LastOccurrence(nn + [n], k)
    ensures LastOccurrence(nn, k) && nn[k] != n
  {
    var m := nn + [n];
    assert m[|nn|] == n && m[k] == nn[k];
    forall j | k < j < |nn|
      ensures nn[j] != nn[k]
    {
      assert m[j] == nn[j];
    }
  }

  /** Distinct non-null entries stay distinct once the nulls are dropped. */
  lemma {:induction false} NonNullDistinct(nodes: seq<BaseAudioNode?>)
    requires forall i, j :: 0 <= i < j < |nodes| && nodes[i] != null ==> nodes[i] != nodes[j]
    ensures Distinct(NonNull(nodes))
    decreases |nodes|
  {
    if nodes != [] {
      var init := nodes[..|nodes| - 1];
      NonNullDistinct(init);
      var n := nodes[|nodes| - 1];
      var rest := NonNull(init);
      NonNullFrom(init);
      if n != null {
        forall i | 0 <= i < |rest|
          ensures rest[i] != n
        {
          var k :| 0 <= k < |init| && init[k] == rest[i];
          assert nodes[k] == init[k] && nodes[|nodes| - 1] == n;
        }
        assert NonNull(nodes) == rest + [n];
        var nn := rest + [n];
        forall i, j | 0 <= i < j < |nn|
          ensures nn[i] != nn[j]
        {
          if j < |rest| {
            assert Distinct(rest);
            assert nn[i] == rest[i] && nn[j] == rest[j];
          } else {
            assert nn[i] == rest[i] && nn[j] == n;
          }
        }
        assert Distinct(nn);
      } else {
        assert NonNull(nodes) == rest;
      }
    }
  }
}
