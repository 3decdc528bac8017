/** `AudioGraphHost`: resolves an `AudioGraphDefinition` into generator instances. The slots are
    indexed by guid, then the output slot is built, each slot after its single input, every guid
    at most once thanks to an instance cache. */
module GraphHost {
  import opened Common
  import opened Audio
  import opened AudioNodes
  import opened GraphDefinition

  /** The slot index: every present slot with a guid, under that guid; where two slots share a
      guid, the later one. */
  function IndexOf(slots: seq<Slot?>): (r: map<string, Slot>)
    reads slots
    ensures forall g :: g in r ==> g != ""
    decreases |slots|
  {
    if slots == [] then map[]
    else
      var rest := IndexOf(slots[..|slots| - 1]);
      var s := slots[|slots| - 1];
      if s == null || s.guid == "" then rest else rest[s.guid := s]
  }

  /** Slot `i` is indexed under its guid unless a later slot has the same guid, and everything
      indexed is some slot under its own guid. */
  lemma {:induction false} IndexOfLastWins(slots: seq<Slot?>)
    ensures forall i :: 0 <= i < |slots| && slots[i] != null && slots[i].guid != ""
                        && (forall j :: i < j < |slots| && slots[j] != null ==> slots[j].guid != slots[i].guid) ==>
              slots[i].guid in IndexOf(slots) && IndexOf(slots)[slots[i].guid] == slots[i]
    ensures forall g :: g in IndexOf(slots) ==>
              exists i :: 0 <= i < |slots| && slots[i] != null && slots[i].guid == g && IndexOf(slots)[g] == slots[i]
    decreases |slots|
  {
    if slots != [] {
      var init := slots[..|slots| - 1];
      IndexOfLastWins(init);
      assert forall i :: 0 <= i < |init| ==> slots[i] == init[i];
    }
  }

  /** The slot at `guid` can be built: it is indexed, has a node and at most one input. */
  ghost predicate Buildable(index: map<string, Slot>, guid: string) {
    guid in index && index[guid].node != null && |index[guid].inputGuids| <= 1
  }

  /** `rank` orders the slots a build recurses from: a ranked slot with a node and a single indexed
      input has that input ranked lower. Slots outside `rank`, slots without a node and slots with
      no or several inputs are unconstrained, so only a cycle the build would follow is excluded. */
  ghost predicate Ranked(index: map<string, Slot>, rank: map<string, nat>) {
    forall g :: g in rank && g in index && index[g].node != null
                && |index[g].inputGuids| == 1 && index[g].inputGuids[0] in index ==>
      index[g].inputGuids[0] in rank && rank[index[g].inputGuids[0]] < rank[g]
  }

  /** The build of `guid` terminates: the rank covers the slots it recurses from, and `guid` itself
      when it is indexed. */
  ghost predicate RankedFrom(index: map<string, Slot>, rank: map<string, nat>, guid: string) {
    Ranked(index, rank) && (guid in index ==> guid in rank)
  }

  /** A self-looping slot the output never reaches needs no rank: the output is still buildable. */
  lemma UnreachedCycleNeedsNoRank(output: Slot, stray: Slot)
    requires |output.inputGuids| == 0 && stray.inputGuids == ["x"]
    ensures RankedFrom(map["out" := output, "x" := stray], map["out" := 0], "out")
  {
  }

  /** A cycle through a slot without a node needs no rank there: the build stops at that slot. */
  lemma NodelessCycleNeedsNoRank(output: Slot, nodeless: Slot)
    requires output.inputGuids == ["y"] && nodeless.node == null && nodeless.inputGuids == ["out"]
    ensures RankedFrom(map["out" := output, "y" := nodeless], map["out" := 1, "y" := 0], "out")
  {
  }

  ghost function Height(index: map<string, Slot>, rank: map<string, nat>, guid: string): nat {
    if guid in index && guid in rank then rank[guid] + 1 else 0
  }

  /** `BuildInstance` on values: the instance returned, the cache and the allocations after
      building `guid` from `cache` when `gens` have been allocated so far. */
  ghost function Build(index: map<string, Slot>, rank: map<string, nat>, cache: map<string, Instance>,
                       guid: string, isRoot: bool, nested: Option<AudioFormat>, defaultNested: AudioFormat,
                       gens: seq<Generator>): (Instance, map<string, Instance>, seq<Generator>)
    requires RankedFrom(index, rank, guid)
    decreases Height(index, rank, guid)
  {
    if guid in cache then (cache[guid], cache, gens)
    else if guid !in index || index[guid].node == null then (Null, cache, gens)
    else
      var slot := index[guid];
      var fmt := if isRoot then nested else Some(nested.GetOr(defaultNested));
      if |slot.inputGuids| == 0 then
        (Handle(|gens|), cache[guid := Handle(|gens|)], gens + [NodeGenerator(slot.node.settings, fmt, false, Null)])
      else if |slot.inputGuids| == 1 then
        var up := Build(index, rank, cache, slot.inputGuids[0], false, nested, defaultNested, gens);
        (Handle(|up.2|), up.1[guid := Handle(|up.2|)], up.2 + [NodeGenerator(slot.node.settings, fmt, true, up.0)])
      else (Null, cache, gens)
  }

  /** The instance cached for `guid`, or the default instance. */
  function Lookup(cache: map<string, Instance>, guid: string): Instance {
    if guid in cache then cache[guid] else Null
  }

  /** What the cache means: each cached slot is buildable and its handle names the processor of
      that slot's node, built over the instance of its input (or the default instance when that
      input cannot be built); a single input is cached exactly when it is buildable. */
  ghost predicate Consistent(index: map<string, Slot>, cache: map<string, Instance>, gens: seq<Generator>) {
    forall g :: g in cache ==>
      Buildable(index, g)
      && cache[g].Handle? && cache[g].id < |gens|
      && gens[cache[g].id].NodeGenerator?
      && gens[cache[g].id].settings == index[g].node.settings
      && gens[cache[g].id].hasUpstream == (|index[g].inputGuids| == 1)
      && (|index[g].inputGuids| == 1 ==>
            (index[g].inputGuids[0] in cache <==> Buildable(index, index[g].inputGuids[0]))
            && gens[cache[g].id].upstream == Lookup(cache, index[g].inputGuids[0]))
  }

  /** A build only appends: the earlier allocations and cache entries stay, every new entry is a
      slot ranked no higher than `guid`, one allocation is made per new entry, and the result is
      the cached instance, the new last allocation, or the default instance for a slot that cannot
      be built. */
  lemma BuildExtends(index: map<string, Slot>, rank: map<string, nat>, cache: map<string, Instance>,
                     guid: string, isRoot: bool, nested: Option<AudioFormat>,
                     defaultNested: AudioFormat, gens: seq<Generator>)
    requires RankedFrom(index, rank, guid) && Consistent(index, cache, gens)
    ensures var r := Build(index, rank, cache, guid, isRoot, nested, defaultNested, gens);
            |r.2| >= |gens| && r.2[..|gens|] == gens
            && (forall g :: g in cache ==> g in r.1 && r.1[g] == cache[g])
            && (forall g :: g in r.1 && g !in cache ==> guid in index && g in index && g in rank && rank[g] <= rank[guid])
            && |r.1| == |cache| + (|r.2| - |gens|)
            && r.0 == (if guid in cache then cache[guid] else if Buildable(index, guid) then Handle(|r.2| - 1) else Null)
            && (Buildable(index, guid) ==> guid in r.1 && r.1[guid] == r.0)
            && (!Buildable(index, guid) ==> r == (Null, cache, gens))
  {
    BuildGrows(index, rank, cache, guid, isRoot, nested, defaultNested, gens);
    BuildResult(index, rank, cache, guid, isRoot, nested, defaultNested, gens);
  }

  /** The allocation and cache growth part of `BuildExtends`. */
  lemma {:induction false} BuildGrows(index: map<string, Slot>, rank: map<string, nat>, cache: map<string, Instance>,
                                      guid: string, isRoot: bool, nested: Option<AudioFormat>,
                                      defaultNested: AudioFormat, gens: seq<Generator>)
    requires RankedFrom(index, rank, guid)
    ensures var r := Build(index, rank, cache, guid, isRoot, nested, defaultNested, gens);
            |r.2| >= |gens| && r.2[..|gens|] == gens
            && (forall g :: g in cache ==> g in r.1 && r.1[g] == cache[g])
            && (forall g :: g in r.1 && g !in cache ==> guid in index && g in index && g in rank && rank[g] <= rank[guid])
            && |r.1| == |cache| + (|r.2| - |gens|)
    decreases Height(index, rank, guid)
  {
    var r := Build(index, rank, cache, guid, isRoot, nested, defaultNested, gens);
    if guid !in cache && Buildable(index, guid) && |index[guid].inputGuids| == 1 {
      var input := index[guid].inputGuids[0];
      BuildGrows(index, rank, cache, input, false, nested, defaultNested, gens);
      var up := Build(index, rank, cache, input, false, nested, defaultNested, gens);
      assert guid !in up.1;
      assert r.2[..|gens|] == up.2[..|gens|];
    } else if guid !in cache && Buildable(index, guid) {
      assert r.2[..|gens|] == gens;
    }
  }

  /** The result part of `BuildExtends`, which needs no induction. */
  lemma BuildResult(index: map<string, Slot>, rank: map<string, nat>, cache: map<string, Instance>,
                    guid: string, isRoot: bool, nested: Option<AudioFormat>,
                    defaultNested: AudioFormat, gens: seq<Generator>)
    requires RankedFrom(index, rank, guid)
    ensures var r := Build(index, rank, cache, guid, isRoot, nested, defaultNested, gens);
            r.0 == (if guid in cache then cache[guid] else if Buildable(index, guid) then Handle(|r.2| - 1) else Null)
            && (Buildable(index, guid) && guid !in cache ==> guid in r.1 && r.1[guid] == r.0)
            && (!Buildable(index, guid) && guid !in cache ==> r == (Null, cache, gens))
  {
  }

  /** Building keeps the cache consistent. */
  lemma {:induction false} BuildConsistent(index: map<string, Slot>, rank: map<string, nat>, cache: map<string, Instance>,
                                           guid: string, isRoot: bool, nested: Option<AudioFormat>,
                                           defaultNested: AudioFormat, gens: seq<Generator>)
    requires RankedFrom(index, rank, guid) && Consistent(index, cache, gens)
    ensures var r := Build(index, rank, cache, guid, isRoot, nested, defaultNested, gens);
            Consistent(index, r.1, r.2)
    decreases Height(index, rank, guid)
  {
    if guid !in cache && Buildable(index, guid) {
      var slot := index[guid];
      var r := Build(index, rank, cache, guid, isRoot, nested, defaultNested, gens);
      BuildExtends(index, rank, cache, guid, isRoot, nested, defaultNested, gens);
      if |slot.inputGuids| == 1 {
        var input := slot.inputGuids[0];
        BuildConsistent(index, rank, cache, input, false, nested, defaultNested, gens);
        BuildExtends(index, rank, cache, input, false, nested, defaultNested, gens);
        var up := Build(index, rank, cache, input, false, nested, defaultNested, gens);
        assert guid !in up.1;
        AddEntry(index, up.1, up.2, guid, r.2[|up.2|]);
      } else {
        AddEntry(index, cache, gens, guid, r.2[|gens|]);
      }
    }
  }

  lemma EmptyCacheConsistent(index: map<string, Slot>, gens: seq<Generator>)
    ensures Consistent(index, map[], gens)
  {
  }

  /** Caching a new buildable slot under the handle of one more allocation keeps the cache
      consistent, when that allocation is the slot's processor over its input's cached instance. */
  lemma AddEntry(index: map<string, Slot>, cache: map<string, Instance>, gens: seq<Generator>, guid: string, g: Generator)
    requires Consistent(index, cache, gens) && guid !in cache && Buildable(index, guid)
    requires g.NodeGenerator? && g.settings == index[guid].node.settings
    requires g.hasUpstream == (|index[guid].inputGuids| == 1)
    requires |index[guid].inputGuids| == 1 ==>
               (index[guid].inputGuids[0] in cache <==> Buildable(index, index[guid].inputGuids[0]))
               && g.upstream == Lookup(cache, index[guid].inputGuids[0])
               && index[guid].inputGuids[0] != guid
    ensures Consistent(index, cache[guid := Handle(|gens|)], gens + [g])
  {
    var c := cache[guid := Handle(|gens|)];
    var gs := gens + [g];
    forall k | k in c
      ensures Buildable(index, k) && c[k].Handle? && c[k].id < |gs| && gs[c[k].id].NodeGenerator?
      ensures gs[c[k].id].settings == index[k].node.settings
      ensures gs[c[k].id].hasUpstream == (|index[k].inputGuids| == 1)
      ensures |index[k].inputGuids| == 1 ==>
                (index[k].inputGuids[0] in c <==> Buildable(index, index[k].inputGuids[0]))
                && gs[c[k].id].upstream == Lookup(c, index[k].inputGuids[0])
    {
      if k != guid {
        assert gs[c[k].id] == gens[cache[k].id];
        if |index[k].inputGuids| == 1 {
          var x := index[k].inputGuids[0];
          assert x != guid;
        }
      }
    }
  }

  /** The format rule: every allocation a build makes gets `nested ?? defaultNested`, never null,
      except the root slot's own processor, which gets `nested` as it is. */
  lemma {:induction false} BuildFormats(index: map<string, Slot>, rank: map<string, nat>, cache: map<string, Instance>,
                                        guid: string, isRoot: bool, nested: Option<AudioFormat>,
                                        defaultNested: AudioFormat, gens: seq<Generator>)
    requires RankedFrom(index, rank, guid)
    ensures var r := Build(index, rank, cache, guid, isRoot, nested, defaultNested, gens);
            |r.2| >= |gens|
            && forall i :: |gens| <= i < |r.2| ==>
                 r.2[i].format == if isRoot && i == |r.2| - 1 then nested else Some(nested.GetOr(defaultNested))
    decreases Height(index, rank, guid)
  {
    if guid !in cache && guid in index && index[guid].node != null && |index[guid].inputGuids| == 1 {
      var input := index[guid].inputGuids[0];
      BuildFormats(index, rank, cache, input, false, nested, defaultNested, gens);
    }
  }

  class AudioGraphHost {
    const definition: AudioGraphDefinition?
    var slotByGuid: map<string, Slot>
    var instanceByGuid: map<string, Instance>

    constructor (d: AudioGraphDefinition?)
      ensures definition == d && slotByGuid == map[] && instanceByGuid == map[]
    {
      definition := d;
      slotByGuid := map[];
      instanceByGuid := map[];
    }

    /** `TryGetInstance`: the instance the last resolution cached for the guid, if any. */
    function TryGetInstance(slotGuid: string): (r: Option<Instance>)
      reads this
      ensures r.Some? <==> slotGuid in instanceByGuid
      ensures r.Some? ==> r.value == instanceByGuid[slotGuid]
    {
      if slotGuid in instanceByGuid then Some(instanceByGuid[slotGuid]) else None
    }

    /** While the cache is consistent with the allocations (as every resolution leaves it), an
        instance found for a guid is the processor allocated for that slot's node, with its
        settings, and has an upstream exactly when the slot has a single input. */
    lemma FoundInstanceIsSlotProcessor(gens: seq<Generator>, slotGuid: string)
      requires Consistent(slotByGuid, instanceByGuid, gens) && TryGetInstance(slotGuid).Some?
      ensures var h := TryGetInstance(slotGuid).value;
              slotGuid in slotByGuid && h.Handle? && h.id < |gens| && gens[h.id].NodeGenerator?
              && gens[h.id].settings == slotByGuid[slotGuid].node.settings
              && gens[h.id].hasUpstream == (|slotByGuid[slotGuid].inputGuids| == 1)
    {
      assert slotGuid in instanceByGuid;
    }

    /** `CreateInstance`: clear both dictionaries; with no slots, or an output guid that is not
        indexed, build nothing; otherwise build the output slot as the root. `rank` witnesses that
        the inputs have no cycle, without which the build would not end. */
    method CreateInstance(ctx: Context, nested: Option<AudioFormat>, defaultNested: AudioFormat,
                          ghost rank: map<string, nat>) returns (h: Instance)
      requires definition != null ==> RankedFrom(IndexOf(definition.slots), rank, definition.outputGuid)
      modifies this`slotByGuid, this`instanceByGuid, ctx`generators
      ensures definition == null || |definition.slots| == 0 ==>
                h == Null && slotByGuid == map[] && instanceByGuid == map[] && ctx.generators == old(ctx.generators)
      ensures definition != null && |definition.slots| > 0 ==> slotByGuid == IndexOf(definition.slots)
      ensures definition != null && |definition.slots| > 0 && definition.outputGuid !in slotByGuid ==>
                h == Null && instanceByGuid == map[] && ctx.generators == old(ctx.generators)
      ensures definition != null && |definition.slots| > 0 && definition.outputGuid in slotByGuid ==>
                (h, instanceByGuid, ctx.generators)
                  == Build(slotByGuid, rank, map[], definition.outputGuid, true, nested, defaultNested, old(ctx.generators))
      ensures Consistent(slotByGuid, instanceByGuid, ctx.generators)
      ensures |ctx.generators| == |old(ctx.generators)| + |instanceByGuid|
    {
      slotByGuid := map[];
      instanceByGuid := map[];
      if definition == null || |definition.slots| == 0 {
        return Null;
      }
      h := ResolveOutput(ctx, nested, defaultNested, rank);
    }

    /** `CreateInstance` once there are slots: index them, then build the output slot if indexed. */
    method ResolveOutput(ctx: Context, nested: Option<AudioFormat>, defaultNested: AudioFormat,
                         ghost rank: map<string, nat>) returns (h: Instance)
      requires definition != null && RankedFrom(IndexOf(definition.slots), rank, definition.outputGuid)
      requires instanceByGuid == map[]
      modifies this`slotByGuid, this`instanceByGuid, ctx`generators
      ensures slotByGuid == IndexOf(definition.slots)
      ensures definition.outputGuid !in slotByGuid ==>
                h == Null && instanceByGuid == map[] && ctx.generators == old(ctx.generators)
      ensures definition.outputGuid in slotByGuid ==>
                (h, instanceByGuid, ctx.generators)
                  == Build(slotByGuid, rank, map[], definition.outputGuid, true, nested, defaultNested, old(ctx.generators))
      ensures Consistent(slotByGuid, instanceByGuid, ctx.generators)
      ensures |ctx.generators| == |old(ctx.generators)| + |instanceByGuid|
    {
      IndexSlots();
      h := BuildOutput(definition.outputGuid, ctx, nested, defaultNested, rank);
    }

    /** Builds the output slot when it is indexed under a non-empty guid. */
    method BuildOutput(output: string, ctx: Context, nested: Option<AudioFormat>, defaultNested: AudioFormat,
                       ghost rank: map<string, nat>) returns (h: Instance)
      requires RankedFrom(slotByGuid, rank, output) && instanceByGuid == map[] && "" !in slotByGuid
      modifies this`instanceByGuid, ctx`generators
      ensures output !in slotByGuid ==> h == Null && instanceByGuid == map[] && ctx.generators == old(ctx.generators)
      ensures output in slotByGuid ==>
                (h, instanceByGuid, ctx.generators)
                  == Build(slotByGuid, rank, map[], output, true, nested, defaultNested, old(ctx.generators))
      ensures Consistent(slotByGuid, instanceByGuid, ctx.generators)
      ensures |ctx.generators| == |old(ctx.generators)| + |instanceByGuid|
    {
      if output == "" || output !in slotByGuid {
        EmptyCacheConsistent(slotByGuid, ctx.generators);
        return Null;
      }
      h := BuildRoot(output, ctx, nested, defaultNested, rank);
    }

    /** Builds the output slot into the empty cache. */
    method BuildRoot(output: string, ctx: Context, nested: Option<AudioFormat>, defaultNested: AudioFormat,
                     ghost rank: map<string, nat>) returns (h: Instance)
      requires RankedFrom(slotByGuid, rank, output) && instanceByGuid == map[]
      modifies this`instanceByGuid, ctx`generators
      ensures (h, instanceByGuid, ctx.generators)
                == Build(slotByGuid, rank, map[], output, true, nested, defaultNested, old(ctx.generators))
      ensures Consistent(slotByGuid, instanceByGuid, ctx.generators)
      ensures |ctx.generators| == |old(ctx.generators)| + |instanceByGuid|
    {
      ghost var index, gens := slotByGuid, ctx.generators;
      ghost var r := Build(index, rank, map[], output, true, nested, defaultNested, gens);
      BuildExtends(index, rank, map[], output, true, nested, defaultNested, gens);
      BuildConsistent(index, rank, map[], output, true, nested, defaultNested, gens);
      assert Consistent(index, r.1, r.2) && |r.2| == |gens| + |r.1|;
      h := BuildInstance(output, true, ctx, nested, defaultNested, rank);
      assert (h, instanceByGuid, ctx.generators) == r;
    }

    /** The loop of `CreateInstance` that fills the slot index. */
    method IndexSlots()
      requires definition != null
      modifies this`slotByGuid
      ensures slotByGuid == IndexOf(definition.slots)
    {
      slotByGuid := map[];
      var slots := definition.slots;
      var i := 0;
      while i < |slots|
        invariant 0 <= i <= |slots|
        invariant slotByGuid == IndexOf(slots[..i])
      {
        assert slots[..i + 1][..i] == slots[..i];
        var s := slots[i];
        if s != null && s.guid != "" {
          slotByGuid := slotByGuid[s.guid := s];
        }
        i := i + 1;
      }
      assert slots[..|slots|] == slots;
    }

    /** `BuildInstance`: a cached guid returns its instance; a missing slot, a null node or more
        than one input returns the default instance and caches nothing; otherwise the single input
        is built first (even if that yields the default instance), then the slot's processor,
        which is cached. */
    method BuildInstance(slotGuid: string, isRoot: bool, ctx: Context, nested: Option<AudioFormat>,
                         defaultNested: AudioFormat, ghost rank: map<string, nat>) returns (h: Instance)
      requires RankedFrom(slotByGuid, rank, slotGuid)
      modifies this`instanceByGuid, ctx`generators
      ensures (h, instanceByGuid, ctx.generators)
                == Build(slotByGuid, rank, old(instanceByGuid), slotGuid, isRoot, nested, defaultNested, old(ctx.generators))
      decreases Height(slotByGuid, rank, slotGuid)
    {
      if slotGuid in instanceByGuid {
        return instanceByGuid[slotGuid];
      }
      if slotGuid !in slotByGuid || slotByGuid[slotGuid].node == null {
        return Null;
      }
      var slot := slotByGuid[slotGuid];
      var fmt := if isRoot then nested else Some(nested.GetOr(defaultNested));
      var inputs := slot.inputGuids;
      var instance;
      if |inputs| == 0 {
        instance := slot.node.CreateInstanceWithUpstream(ctx, fmt, false, Null);
      } else if |inputs| == 1 {
        var up := BuildInstance(inputs[0], false, ctx, nested, defaultNested, rank);
        instance := slot.node.CreateInstanceWithUpstream(ctx, fmt, true, up);
      } else {
        return Null;
      }
      instanceByGuid := instanceByGuid[slotGuid := instance];
      h := instance;
    }
  }
}
