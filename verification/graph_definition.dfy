/** `AudioGraphDefinition`: the serialized graph asset. Each slot names a node, carries a guid and
    lists the guids of its inputs; validation gives every slot a guid and picks the output. */
module GraphDefinition {
  import opened AudioNodes

  predicate IsHexDigit(c: char) {
    '0' <= c <= '9' || 'a' <= c <= 'f'
  }

  /** What `Guid.NewGuid().ToString("N")` produces: 32 lower-case hexadecimal digits. */
  type GuidText = s: string | |s| == 32 && forall i :: 0 <= i < |s| ==> IsHexDigit(s[i])
    witness "00000000000000000000000000000000"

  /** The guid a slot holds after `EnsureGuid`, when the guid generator would return `generated`. */
  function EnsuredGuid(guid: string, generated: GuidText): (r: string)
    ensures r != ""
  {
    if guid != "" then guid else generated
  }

  /** `EnsureGuid` keeps a guid it has set, whatever a second call would have generated. */
  lemma EnsuredGuidIdempotent(guid: string, generated: GuidText, again: GuidText)
    ensures EnsuredGuid(EnsuredGuid(guid, generated), again) == EnsuredGuid(guid, generated)
    ensures guid != "" ==> EnsuredGuid(guid, generated) == guid
  {
  }

  class Slot {
    var guid: string
    const slotLabel: string
    const node: BaseAudioNode?
    /** The inputs' guids; a null array is the empty one. Only 0 or 1 inputs can be built. */
    const inputGuids: seq<string>

    constructor (g: string, l: string, n: BaseAudioNode?, inputs: seq<string>)
      ensures guid == g && slotLabel == l && node == n && inputGuids == inputs
    {
      guid := g;
      slotLabel := l;
      node := n;
      inputGuids := inputs;
    }

    /** `EnsureGuid`: an empty guid is replaced by a newly generated one. */
    method EnsureGuid(generated: GuidText)
      modifies this`guid
      ensures guid == EnsuredGuid(old(guid), generated)
    {
      if guid != "" {
        return;
      }
      guid := generated;
    }
  }

  /** A slot the output may be: present, with a node and a guid. */
  predicate IsCandidate(s: Slot?)
    reads s
  {
    s != null && s.node != null && s.guid != ""
  }

  /** The output guid: that of the last candidate slot, or empty when there is none. */
  function LastCandidateGuid(slots: seq<Slot?>): (r: string)
    reads slots
    decreases |slots|
  {
    if slots == [] then ""
    else if IsCandidate(slots[|slots| - 1]) then slots[|slots| - 1].guid
    else LastCandidateGuid(slots[..|slots| - 1])
  }

  /** Slot `k` is a candidate and no later slot is one. */
  ghost predicate LastCandidateAt(slots: seq<Slot?>, k: int)
    reads slots
    requires 0 <= k < |slots|
  {
    IsCandidate(slots[k]) && forall j :: k < j < |slots| ==> !IsCandidate(slots[j])
  }

  /** The output guid is empty exactly when no slot is a candidate; otherwise it is the guid of a
      candidate slot after which no slot is one. */
  lemma {:induction false} LastCandidateGuidIsLast(slots: seq<Slot?>)
    ensures var r := LastCandidateGuid(slots);
            (r == "" <==> forall i :: 0 <= i < |slots| ==> !IsCandidate(slots[i]))
            && (r != "" ==> exists k :: 0 <= k < |slots| && LastCandidateAt(slots, k) && slots[k].guid == r)
    decreases |slots|
  {
    if slots != [] {
      var init := slots[..|slots| - 1];
      LastCandidateGuidIsLast(init);
      var k := |slots| - 1;
      if IsCandidate(slots[k]) {
        assert LastCandidateAt(slots, k);
      } else {
        assert forall i :: 0 <= i < k ==> slots[i] == init[i];
        var r := LastCandidateGuid(init);
        if r != "" {
          var k' :| 0 <= k' < |init| && LastCandidateAt(init, k') && init[k'].guid == r;
          assert LastCandidateAt(slots, k');
        }
      }
    }
  }

  class AudioGraphDefinition {
    /** The serialized `slots`; a null array is the empty one. */
    var slots: seq<Slot?>
    var outputGuid: string

    constructor (ss: seq<Slot?>, output: string)
      ensures slots == ss && outputGuid == output
    {
      slots := ss;
      outputGuid := output;
    }

    /** `OnValidate`: every slot gets a guid (slot `i` would be given `newGuid(i)`), then the
        output is set to the last candidate slot. A slot listed twice keeps the guid its first
        occurrence gave it. */
    method OnValidate(newGuid: nat -> GuidText)
      modifies this`outputGuid, slots
      ensures forall i :: 0 <= i < |slots| && slots[i] != null ==> slots[i].guid != ""
      ensures forall i :: 0 <= i < |slots| && slots[i] != null && old(slots[i].guid) != "" ==>
                slots[i].guid == old(slots[i].guid)
      ensures forall i :: 0 <= i < |slots| && slots[i] != null && old(slots[i].guid) == "" ==>
                exists j :: 0 <= j <= i && slots[j] == slots[i] && slots[i].guid == newGuid(j)
      ensures outputGuid == LastCandidateGuid(slots)
    {
      EnsureGuids(newGuid);
      outputGuid := FindLastCandidate();
    }

    /** The first loop of `OnValidate`. */
    method EnsureGuids(newGuid: nat -> GuidText)
      modifies slots
      ensures forall i :: 0 <= i < |slots| && slots[i] != null ==> slots[i].guid != ""
      ensures forall i :: 0 <= i < |slots| && slots[i] != null && old(slots[i].guid) != "" ==>
                slots[i].guid == old(slots[i].guid)
      ensures forall i :: 0 <= i < |slots| && slots[i] != null && old(slots[i].guid) == "" ==>
                exists j :: 0 <= j <= i && slots[j] == slots[i] && slots[i].guid == newGuid(j)
    {
      var i := 0;
      while i < |slots|
        invariant 0 <= i <= |slots|
        invariant forall k :: 0 <= k < |slots| && slots[k] != null && slots[k] !in slots[..i] ==>
                    slots[k].guid == old(slots[k].guid)
        invariant forall k :: 0 <= k < i && slots[k] != null ==> slots[k].guid != ""
        invariant forall k :: 0 <= k < i && slots[k] != null && old(slots[k].guid) != "" ==>
                    slots[k].guid == old(slots[k].guid)
        invariant forall k :: 0 <= k < i && slots[k] != null && old(slots[k].guid) == "" ==>
                    exists j :: 0 <= j <= k && slots[j] == slots[k] && slots[k].guid == newGuid(j)
      {
        var s := slots[i];
        if s != null {
          EnsureOne(i, newGuid);
        }
        assert slots[..i + 1] == slots[..i] + [slots[i]];
        i := i + 1;
      }
    }

    /** One step of the first loop: slot `i`'s `EnsureGuid`, with the loop's facts carried over. */
    method EnsureOne(i: nat, newGuid: nat -> GuidText)
      requires i < |slots| && slots[i] != null
      requires forall k :: 0 <= k < i && slots[k] != null ==> slots[k].guid != ""
      modifies slots[i]
      ensures slots[i].guid == EnsuredGuid(old(slots[i].guid), newGuid(i))
      ensures forall k :: 0 <= k < |slots| && slots[k] != slots[i] && slots[k] != null ==>
                slots[k].guid == old(slots[k].guid)
      ensures forall k :: 0 <= k < i && slots[k] != null ==> slots[k].guid == old(slots[k].guid)
    {
      slots[i].EnsureGuid(newGuid(i));
    }

    /** The backward loop of `OnValidate`: the guid of the last candidate slot, or empty. */
    method FindLastCandidate() returns (last: string)
      ensures last == LastCandidateGuid(slots)
    {
      last := "";
      var i := |slots| - 1;
      assert slots[..i + 1] == slots;
      while i >= 0
        invariant -1 <= i < |slots|
        invariant LastCandidateGuid(slots) == LastCandidateGuid(slots[..i + 1])
      {
        var s := slots[i];
        assert slots[..i + 1][..i] == slots[..i];
        if s == null || s.node == null {
          i := i - 1;
          continue;
        }
        if s.guid == "" {
          i := i - 1;
          continue;
        }
        last := s.guid;
        return;
      }
      assert slots[..0] == [];
    }
  }
}
