/** `BaseNodeControllerEditor`: the inspector that lets a controller pick the graph slot it
    sends to. It classifies each slot's node against the message types the controller sends,
    assembles the slot list (a "(none)" entry first, one entry per slot with a guid, the first
    entry per guid kept, sorted by label ignoring case), filters it, and keeps the dropdown's
    selection in step with the stored slot guid. Reflection and drawing are not modelled: the
    slots, the required types and the user's picks come in as values. */
module BaseNodeControllerEditor {
  import opened Common
  import opened Text

  /** A message type, by its full name. */
  type TypeName = string

  datatype Compatibility = Compatible | Incompatible | Unknown

  /** A node asset as the editor sees it: its type name, its object name, and the message types
      its `AudioNodeMessageSupport` attribute lists (`None` without the attribute or list; an
      entry may be null). */
  datatype NodeInfo = NodeInfo(typeName: string, name: string, supported: Option<seq<Option<TypeName>>>)

  /** A slot found in the host's definition. */
  datatype SlotRaw = SlotRaw(guid: string, slotLabel: string, node: Option<NodeInfo>)

  /** An entry of the dropdown. */
  datatype SlotView = SlotView(guid: string, slotLabel: string, node: Option<NodeInfo>, compatibility: Compatibility)

  /** What the dropdown shows under the popup. */
  datatype Notice = NoNotice | EmptyFilterInfo | UnknownWarning | IncompatibleWarning

  // ---------------------------------------------------------------------------
  // Compatibility
  // ---------------------------------------------------------------------------

  /** The non-null supported types. */
  function SupportedSet(types: seq<Option<TypeName>>): set<TypeName> {
    set i | 0 <= i < |types| && types[i].Some? :: types[i].value
  }

  /** Every required type is non-null and supported. */
  predicate AllSupported(required: seq<Option<TypeName>>, supported: set<TypeName>) {
    forall i :: 0 <= i < |required| ==> required[i].Some? && required[i].value in supported
  }

  /** `EvaluateCompatibility` (a null required array is the empty one). */
  function EvaluateCompatibility(node: Option<NodeInfo>, required: seq<Option<TypeName>>): (c: Compatibility)
    ensures |required| == 0 ==> c == Compatible
    ensures |required| > 0 && (node.None? || node.value.supported.None? || |node.value.supported.value| == 0)
            ==> c == Unknown
    ensures |required| > 0 && node.Some? && node.value.supported.Some? && |node.value.supported.value| > 0
            ==> c != Unknown
                && (c == Compatible <==>
                    forall i :: 0 <= i < |required| ==> required[i].Some? && required[i] in node.value.supported.value)
  {
    if |required| == 0 then Compatible
    else if node.None? || node.value.supported.None? || |node.value.supported.value| == 0 then Unknown
    else if AllSupported(required, SupportedSet(node.value.supported.value)) then Compatible
    else Incompatible
  }

  /** A node that supports at least the (non-null) types of a compatible node is compatible too. */
  lemma CompatibleMonotone(n: NodeInfo, m: NodeInfo, required: seq<Option<TypeName>>)
    requires EvaluateCompatibility(Some(n), required) == Compatible
    requires m.supported.Some? && |m.supported.value| > 0
    requires n.supported.Some? ==> SupportedSet(n.supported.value) <= SupportedSet(m.supported.value)
    ensures EvaluateCompatibility(Some(m), required) == Compatible
  {
    if |required| > 0 {
      var sn, sm := n.supported.value, m.supported.value;
      forall i | 0 <= i < |required|
        ensures required[i].Some? && required[i].value in SupportedSet(sm)
      {
        assert required[i].Some? && required[i].value in SupportedSet(sn);
      }
    }
  }

  // ---------------------------------------------------------------------------
  // Filtering
  // ---------------------------------------------------------------------------

  /** An entry the compatible-only view keeps: anything not incompatible, and the "(none)" entry. */
  predicate Keep(x: SlotView) {
    x.compatibility != Incompatible || x.guid == ""
  }

  /** `ApplyFilter`. */
  function ApplyFilter(slots: seq<SlotView>, onlyCompatible: bool): (r: seq<SlotView>)
    ensures !onlyCompatible ==> r == slots
    ensures onlyCompatible ==> forall x :: x in r <==> x in slots && Keep(x)
    ensures |r| <= |slots|
  {
    if !onlyCompatible || slots == [] then slots
    else
      var init := ApplyFilter(slots[..|slots| - 1], true);
      var x := slots[|slots| - 1];
      assert slots == slots[..|slots| - 1] + [x];
      if Keep(x) then init + [x] else init
  }

  /** The filter keeps the order: filtering a concatenation concatenates the filtered parts. */
  lemma {:induction false} FilterConcat(a: seq<SlotView>, b: seq<SlotView>)
    ensures ApplyFilter(a + b, true) == ApplyFilter(a, true) + ApplyFilter(b, true)
    decreases |b|
  {
    if b != [] {
      var b' := b[..|b| - 1];
      assert (a + b)[..|a + b| - 1] == a + b';
      FilterConcat(a, b');
    } else {
      assert a + b == a;
    }
  }

  // ---------------------------------------------------------------------------
  // List assembly (`Rebuild`)
  // ---------------------------------------------------------------------------

  /** The entry every list starts with: no slot, send to the `AudioSource`'s generator. */
  const NoneEntry := SlotView("", "(none) - fallback to AudioSource.generatorInstance", None, Compatible)

  /** The guid as shown: its first 8 characters, or all of it when shorter. */
  function ShortGuid(g: string): (r: string)
    ensures |r| == MinI(8, |g|) && r == g[..|r|]
  {
    if |g| >= 8 then g[..8] else g
  }

  /** `GetFallbackNodeDisplayName`. */
  function FallbackName(node: Option<NodeInfo>): string {
    if node.None? then "(empty slot)" else if node.value.name != "" then node.value.name else node.value.typeName
  }

  function NodeTypeName(node: Option<NodeInfo>): string {
    if node.Some? then node.value.typeName else "UnknownNode"
  }

  /** `{displayName} ({nodeTypeName}) [{shortGuid}] index:{slotIndex}`. */
  function SlotLabel(r: SlotRaw, index: nat): string {
    var displayName := if r.slotLabel != "" then r.slotLabel else FallbackName(r.node);
    displayName + " (" + NodeTypeName(r.node) + ") [" + ShortGuid(r.guid) + "] index:" + NatToString(index)
  }

  function View(r: SlotRaw, required: seq<Option<TypeName>>, index: nat): SlotView {
    SlotView(r.guid, SlotLabel(r, index), r.node, EvaluateCompatibility(r.node, required))
  }

  /** The entries for the raw slots that have a guid, numbered in order. */
  function Views(raw: seq<SlotRaw>, required: seq<Option<TypeName>>): (v: seq<SlotView>)
    ensures |v| <= |raw|
  {
    if raw == [] then []
    else
      var init := Views(raw[..|raw| - 1], required);
      var r := raw[|raw| - 1];
      if r.guid == "" then init else init + [View(r, required, |init|)]
  }

  /** Entry `k` is the view of a raw slot with a guid, numbered `k`. */
  predicate ViewOf(v: seq<SlotView>, raw: seq<SlotRaw>, required: seq<Option<TypeName>>, k: int)
    requires 0 <= k < |v|
  {
    exists i :: 0 <= i < |raw| && raw[i].guid != "" && v[k] == View(raw[i], required, k)
  }

  /** Every entry is the view of a slot with a guid, numbered by its position. */
  lemma {:induction false} ViewsSound(raw: seq<SlotRaw>, required: seq<Option<TypeName>>)
    ensures forall k :: 0 <= k < |Views(raw, required)| ==> ViewOf(Views(raw, required), raw, required, k)
  {
    if raw != [] {
      var pre := raw[..|raw| - 1];
      ViewsSound(pre, required);
      var v, init := Views(raw, required), Views(pre, required);
      forall k | 0 <= k < |v|
        ensures ViewOf(v, raw, required, k)
      {
        if k < |init| {
          assert ViewOf(init, pre, required, k);
          var i :| 0 <= i < |pre| && pre[i].guid != "" && init[k] == View(pre[i], required, k);
          assert raw[i] == pre[i] && v[k] == init[k];
        } else {
          assert raw[|raw| - 1].guid != "" && v[k] == View(raw[|raw| - 1], required, k);
        }
      }
    }
  }

  /** Every slot with a guid has an entry. */
  lemma {:induction false} ViewsComplete(raw: seq<SlotRaw>, required: seq<Option<TypeName>>)
    ensures var v := Views(raw, required);
            forall i :: 0 <= i < |raw| && raw[i].guid != "" ==> HasGuid(v, raw[i].guid)
  {
    if raw != [] {
      var pre := raw[..|raw| - 1];
      ViewsComplete(pre, required);
      var v, init := Views(raw, required), Views(pre, required);
      forall i | 0 <= i < |raw| && raw[i].guid != ""
        ensures HasGuid(v, raw[i].guid)
      {
        if i < |pre| {
          assert pre[i] == raw[i];
          assert HasGuid(init, pre[i].guid);
          var k :| 0 <= k < |init| && init[k].guid == pre[i].guid;
          assert v[k] == init[k];
        } else {
          assert v[|v| - 1].guid == raw[i].guid;
        }
      }
    }
  }

  /** The list before grouping: the "(none)" entry, then the slot entries. */
  function Assembled(raw: seq<SlotRaw>, required: seq<Option<TypeName>>): seq<SlotView> {
    [NoneEntry] + Views(raw, required)
  }

  predicate HasGuid(s: seq<SlotView>, g: string) {
    exists j :: 0 <= j < |s| && s[j].guid == g
  }

  /** `s[i]` is the first entry with its guid. */
  predicate FirstOfGuid(s: seq<SlotView>, i: int)
    requires 0 <= i < |s|
  {
    !HasGuid(s[..i], s[i].guid)
  }

  predicate DistinctGuids(s: seq<SlotView>) {
    forall i, j :: 0 <= i < j < |s| ==> s[i].guid != s[j].guid
  }

  /** `GroupBy(x => x.Guid).Select(g => g.First())`: the first entry per guid, in order. */
  function FirstPerGuid(s: seq<SlotView>): (r: seq<SlotView>)
    ensures |r| <= |s|
  {
    if s == [] then []
    else
      var init := s[..|s| - 1];
      if HasGuid(init, s[|s| - 1].guid) then FirstPerGuid(init) else FirstPerGuid(init) + [s[|s| - 1]]
  }

  lemma {:induction false} FirstPerGuidSpec(s: seq<SlotView>)
    ensures DistinctGuids(FirstPerGuid(s))
    ensures forall y :: y in FirstPerGuid(s) ==> exists i :: 0 <= i < |s| && s[i] == y && FirstOfGuid(s, i)
    ensures forall i :: 0 <= i < |s| && FirstOfGuid(s, i) ==> s[i] in FirstPerGuid(s)
  {
    if s != [] {
      var init, x := s[..|s| - 1], s[|s| - 1];
      FirstPerGuidSpec(init);
      var r, r' := FirstPerGuid(s), FirstPerGuid(init);
      forall i | 0 <= i < |init|
        ensures FirstOfGuid(s, i) == FirstOfGuid(init, i)
      {
        assert s[..i] == init[..i];
      }
      forall y | y in r
        ensures exists i :: 0 <= i < |s| && s[i] == y && FirstOfGuid(s, i)
      {
        if y in r' {
          var i :| 0 <= i < |init| && init[i] == y && FirstOfGuid(init, i);
          assert s[i] == y;
        } else {
          assert y == x && !HasGuid(init, x.guid);
          assert s[..|s| - 1] == init;
        }
      }
      forall i | 0 <= i < |s| && FirstOfGuid(s, i)
        ensures s[i] in r
      {
        if i == |s| - 1 {
          assert s[..i] == init;
        }
      }
      if !HasGuid(init, x.guid) {
        forall k | 0 <= k < |r'|
          ensures r'[k].guid != x.guid
        {
          assert r'[k] in r';
          var i :| 0 <= i < |init| && init[i] == r'[k] && FirstOfGuid(init, i);
        }
      }
    }
  }

  /** `StringComparer.OrdinalIgnoreCase` on one character: ASCII lower case as upper case. */
  function Fold(c: char): int {
    if 'a' <= c <= 'z' then c as int - 32 else c as int
  }

  /** Label order ignoring case: lexicographic on folded characters, a prefix first. */
  predicate LabelLeq(a: string, b: string) {
    if a == [] then true
    else if b == [] then false
    else if Fold(a[0]) != Fold(b[0]) then Fold(a[0]) < Fold(b[0])
    else LabelLeq(a[1..], b[1..])
  }

  lemma {:induction false} LabelLeqTotal(a: string, b: string)
    ensures LabelLeq(a, b) || LabelLeq(b, a)
  {
    if a != [] && b != [] && Fold(a[0]) == Fold(b[0]) {
      LabelLeqTotal(a[1..], b[1..]);
    }
  }

  lemma {:induction false} LabelLeqTransitive(a: string, b: string, c: string)
    requires LabelLeq(a, b) && LabelLeq(b, c)
    ensures LabelLeq(a, c)
  {
    if a != [] && b != [] && c != [] && Fold(a[0]) == Fold(b[0]) == Fold(c[0]) {
      LabelLeqTransitive(a[1..], b[1..], c[1..]);
    }
  }

  predicate Sorted(s: seq<SlotView>) {
    forall i, j :: 0 <= i < j < |s| ==> LabelLeq(s[i].slotLabel, s[j].slotLabel)
  }

  /** Inserts `x` after every entry whose label is not greater. */
  function Insert(t: seq<SlotView>, x: SlotView): (r: seq<SlotView>)
    ensures |r| == |t| + 1
  {
    if t == [] then [x]
    else if LabelLeq(t[|t| - 1].slotLabel, x.slotLabel) then t + [x]
    else Insert(t[..|t| - 1], x) + [t[|t| - 1]]
  }

  /** `OrderBy(x => x.Label, StringComparer.OrdinalIgnoreCase)`, as an insertion sort. */
  function SortByLabel(s: seq<SlotView>): (r: seq<SlotView>)
    ensures |r| == |s|
  {
    if s == [] then [] else Insert(SortByLabel(s[..|s| - 1]), s[|s| - 1])
  }

  /** Inserting keeps the order, adds exactly `x`, and keeps guids distinct when `x`'s is new. */
  lemma InsertSpec(t: seq<SlotView>, x: SlotView)
    requires Sorted(t)
    ensures Sorted(Insert(t, x))
    ensures multiset(Insert(t, x)) == multiset(t) + multiset{x}
    ensures DistinctGuids(t) && !HasGuid(t, x.guid) ==> DistinctGuids(Insert(t, x))
  {
    InsertSorted(t, x);
    InsertMultiset(t, x);
    if DistinctGuids(t) && !HasGuid(t, x.guid) {
      InsertDistinct(t, x);
    }
  }

  lemma {:induction false} InsertMultiset(t: seq<SlotView>, x: SlotView)
    ensures multiset(Insert(t, x)) == multiset(t) + multiset{x}
  {
    if t != [] && !LabelLeq(t[|t| - 1].slotLabel, x.slotLabel) {
      var init := t[..|t| - 1];
      assert t == init + [t[|t| - 1]];
      InsertMultiset(init, x);
    }
  }

  lemma {:induction false} InsertSorted(t: seq<SlotView>, x: SlotView)
    requires Sorted(t)
    ensures Sorted(Insert(t, x))
  {
    if t != [] {
      var init, last := t[..|t| - 1], t[|t| - 1];
      assert t == init + [last];
      if LabelLeq(last.slotLabel, x.slotLabel) {
        var r := t + [x];
        forall i, j | 0 <= i < j < |r|
          ensures LabelLeq(r[i].slotLabel, r[j].slotLabel)
        {
          if j == |t| && i < |t| - 1 {
            LabelLeqTransitive(t[i].slotLabel, last.slotLabel, x.slotLabel);
          }
        }
      } else {
        assert Sorted(init);
        InsertSorted(init, x);
        InsertMultiset(init, x);
        var a := Insert(init, x);
        LabelLeqTotal(last.slotLabel, x.slotLabel);
        forall k | 0 <= k < |a|
          ensures LabelLeq(a[k].slotLabel, last.slotLabel)
        {
          assert a[k] in multiset(a);
          if a[k] != x {
            assert a[k] in init;
          }
        }
      }
    }
  }

  lemma {:induction false} InsertDistinct(t: seq<SlotView>, x: SlotView)
    requires DistinctGuids(t) && !HasGuid(t, x.guid)
    ensures DistinctGuids(Insert(t, x))
  {
    if t != [] {
      var init, last := t[..|t| - 1], t[|t| - 1];
      assert t == init + [last];
      if LabelLeq(last.slotLabel, x.slotLabel) {
        assert forall k :: 0 <= k < |t| ==> t[k].guid != x.guid;
      } else {
        assert !HasGuid(init, x.guid) by {
          forall j | 0 <= j < |init| ensures init[j].guid != x.guid {
            assert t[j] == init[j];
          }
        }
        InsertDistinct(init, x);
        InsertMultiset(init, x);
        var a := Insert(init, x);
        forall k | 0 <= k < |a|
          ensures a[k].guid != last.guid
        {
          assert a[k] in multiset(a);
          if a[k] != x {
            assert a[k] in init;
            var j :| 0 <= j < |init| && init[j] == a[k];
            assert t[j] == a[k];
          } else {
            assert t[|t| - 1] == last;
          }
        }
      }
    }
  }

  /** The sorted list is ordered by label and is a permutation of its input; distinct guids stay
      distinct. */
  lemma {:induction false} SortSpec(s: seq<SlotView>)
    ensures Sorted(SortByLabel(s))
    ensures multiset(SortByLabel(s)) == multiset(s)
    ensures DistinctGuids(s) ==> DistinctGuids(SortByLabel(s))
  {
    if s != [] {
      var init, x := s[..|s| - 1], s[|s| - 1];
      assert s == init + [x];
      SortSpec(init);
      var t := SortByLabel(init);
      InsertSpec(t, x);
      if DistinctGuids(s) {
        assert DistinctGuids(init);
        forall j | 0 <= j < |t|
          ensures t[j].guid != x.guid
        {
          assert t[j] in multiset(init);
          var i :| 0 <= i < |init| && init[i] == t[j];
          assert s[i] == t[j];
        }
      }
    }
  }

  /** The slot list `Rebuild` stores. */
  function RebuiltSlots(raw: seq<SlotRaw>, required: seq<Option<TypeName>>): seq<SlotView> {
    SortByLabel(FirstPerGuid(Assembled(raw, required)))
  }

  /** The rebuilt list holds the "(none)" entry, has one entry per guid and is sorted by label. */
  lemma RebuiltSlotsShape(raw: seq<SlotRaw>, required: seq<Option<TypeName>>)
    ensures var l := RebuiltSlots(raw, required);
            NoneEntry in l && Sorted(l) && DistinctGuids(l)
  {
    var a := Assembled(raw, required);
    var g := FirstPerGuid(a);
    FirstPerGuidSpec(a);
    SortSpec(g);
    assert a[..0] == [];
    assert FirstOfGuid(a, 0);
    assert NoneEntry in multiset(g);
  }

  /** Each entry of the rebuilt list is the first assembled entry with its guid. */
  lemma RebuiltKeepsFirst(raw: seq<SlotRaw>, required: seq<Option<TypeName>>)
    ensures var l, a := RebuiltSlots(raw, required), Assembled(raw, required);
            forall y :: y in l ==> exists j :: 0 <= j < |a| && a[j] == y && FirstOfGuid(a, j)
  {
    var a := Assembled(raw, required);
    var g := FirstPerGuid(a);
    var l := RebuiltSlots(raw, required);
    FirstPerGuidSpec(a);
    SortSpec(g);
    forall y | y in l
      ensures y in g
    {
      assert y in multiset(l);
    }
  }

  /** Every slot with a guid is listed. */
  lemma RebuiltCoversSlots(raw: seq<SlotRaw>, required: seq<Option<TypeName>>)
    ensures var l := RebuiltSlots(raw, required);
            forall i :: 0 <= i < |raw| && raw[i].guid != "" ==> HasGuid(l, raw[i].guid)
  {
    var a := Assembled(raw, required);
    var v := Views(raw, required);
    ViewsComplete(raw, required);
    forall i | 0 <= i < |raw| && raw[i].guid != ""
      ensures HasGuid(RebuiltSlots(raw, required), raw[i].guid)
    {
      assert HasGuid(v, raw[i].guid);
      var k :| 0 <= k < |v| && v[k].guid == raw[i].guid;
      assert a[k + 1] == v[k];
      AssembledEntryListed(raw, required, k + 1);
    }
  }

  /** The guid of every assembled entry is listed. */
  lemma AssembledEntryListed(raw: seq<SlotRaw>, required: seq<Option<TypeName>>, k: int)
    requires 0 <= k < |Assembled(raw, required)|
    ensures HasGuid(RebuiltSlots(raw, required), Assembled(raw, required)[k].guid)
  {
    var a := Assembled(raw, required);
    var g := FirstPerGuid(a);
    var l := RebuiltSlots(raw, required);
    FirstPerGuidSpec(a);
    SortSpec(g);
    var j := FirstIndex(a, k);
    assert a[j] in g;
    assert a[j] in multiset(l);
    var m :| 0 <= m < |l| && l[m] == a[j];
  }

  /** Apart from the "(none)" entry, every entry stands for a slot with a guid: its guid, its node,
      and that node's compatibility. */
  lemma RebuiltOnlySlots(raw: seq<SlotRaw>, required: seq<Option<TypeName>>)
    ensures var l := RebuiltSlots(raw, required);
            forall y :: y in l && y != NoneEntry ==>
              exists i :: 0 <= i < |raw| && raw[i].guid != "" && y.guid == raw[i].guid && y.node == raw[i].node
                          && y.compatibility == EvaluateCompatibility(raw[i].node, required)
  {
    var a := Assembled(raw, required);
    var v := Views(raw, required);
    var l := RebuiltSlots(raw, required);
    ViewsSound(raw, required);
    RebuiltKeepsFirst(raw, required);
    forall y | y in l && y != NoneEntry
      ensures exists i :: 0 <= i < |raw| && raw[i].guid != "" && y.guid == raw[i].guid && y.node == raw[i].node
                          && y.compatibility == EvaluateCompatibility(raw[i].node, required)
    {
      var j :| 0 <= j < |a| && a[j] == y && FirstOfGuid(a, j);
      assert j > 0;
      assert y == v[j - 1];
      assert ViewOf(v, raw, required, j - 1);
    }
  }

  /** The first entry carrying the guid of `a[k]` comes at or before `k`. */
  lemma {:induction false} FirstIndex(a: seq<SlotView>, k: int) returns (j: int)
    requires 0 <= k < |a|
    ensures 0 <= j <= k && a[j].guid == a[k].guid && FirstOfGuid(a, j)
    decreases k
  {
    if FirstOfGuid(a, k) {
      j := k;
    } else {
      var i :| 0 <= i < k && a[..k][i].guid == a[k].guid;
      assert a[i].guid == a[k].guid;
      j := FirstIndex(a, i);
    }
  }

  /** However the list is filtered, the "(none)" entry survives, so a rebuilt list never
      filters down to nothing. */
  lemma RebuiltNeverFiltersEmpty(raw: seq<SlotRaw>, required: seq<Option<TypeName>>, onlyCompatible: bool)
    ensures NoneEntry in ApplyFilter(RebuiltSlots(raw, required), onlyCompatible)
  {
    RebuiltSlotsShape(raw, required);
  }

  // ---------------------------------------------------------------------------
  // Dropdown (`DrawDropdown`)
  // ---------------------------------------------------------------------------

  function Guids(s: seq<SlotView>): (g: seq<string>)
    ensures |g| == |s| && forall k :: 0 <= k < |s| ==> g[k] == s[k].guid
  {
    if s == [] then [] else Guids(s[..|s| - 1]) + [s[|s| - 1].guid]
  }

  /** `Array.IndexOf`: the first position of `x`, or -1. */
  function IndexOf(a: seq<string>, x: string): (r: int)
    ensures -1 <= r < |a|
    ensures r == -1 <==> x !in a
    ensures r >= 0 ==> a[r] == x && forall k :: 0 <= k < r ==> a[k] != x
  {
    if a == [] then -1
    else if a[0] == x then 0
    else var r := IndexOf(a[1..], x); if r == -1 then -1 else r + 1
  }

  /** The notice for the entry the dropdown settles on: a warning when a real slot's node is
      unknown or incompatible. */
  function NoticeFor(selected: SlotView): (n: Notice)
    ensures n == UnknownWarning <==> selected.guid != "" && selected.compatibility == Unknown
    ensures n == IncompatibleWarning <==> selected.guid != "" && selected.compatibility == Incompatible
    ensures n != EmptyFilterInfo
  {
    if selected.compatibility == Unknown && selected.guid != "" then UnknownWarning
    else if selected.compatibility == Incompatible && selected.guid != "" then IncompatibleWarning
    else NoNotice
  }

  class ControllerEditor {
    /** `_slots`. */
    var slots: seq<SlotView>
    /** `_selectedIndex`. */
    var selectedIndex: int
    /** `_onlyCompatible`. */
    var onlyCompatible: bool
    /** The controller's serialized `slotGuid` (null read as ""). */
    var slotGuid: string

    constructor (guid: string)
      ensures slots == [] && selectedIndex == 0 && onlyCompatible && slotGuid == guid
    {
      slots := [];
      selectedIndex := 0;
      onlyCompatible := true;
      slotGuid := guid;
    }

    /** `Rebuild`: collects the entries with a running slot index, then groups and sorts. */
    method Rebuild(raw: seq<SlotRaw>, required: seq<Option<TypeName>>)
      modifies this`slots
      ensures slots == RebuiltSlots(raw, required)
      ensures NoneEntry in slots && Sorted(slots) && DistinctGuids(slots)
    {
      var list := [NoneEntry];
      var slotIndex := 0;
      for i := 0 to |raw|
        invariant list == [NoneEntry] + Views(raw[..i], required)
        invariant slotIndex == |list| - 1
      {
        assert raw[..i + 1][..i] == raw[..i];
        var r := raw[i];
        if r.guid == "" {
          continue;
        }
        var compatibility := EvaluateCompatibility(r.node, required);
        var entryLabel := SlotLabel(r, slotIndex);
        list := list + [SlotView(r.guid, entryLabel, r.node, compatibility)];
        slotIndex := slotIndex + 1;
      }
      assert raw[..|raw|] == raw;
      slots := SortByLabel(FirstPerGuid(list));
      RebuiltSlotsShape(raw, required);
    }

    /** `DrawDropdown`: `changed` and `picked` are the popup's answer. Selects the entry of the
        stored guid (else the first), stores the picked entry's guid when the user changed the
        selection to a valid entry, and reports the notice for the entry shown. */
    method DrawDropdown(changed: bool, picked: int) returns (notice: Notice)
      modifies this`selectedIndex, this`slotGuid
      ensures var filtered := ApplyFilter(slots, onlyCompatible);
              |filtered| == 0 ==>
                notice == EmptyFilterInfo && selectedIndex == old(selectedIndex) && slotGuid == old(slotGuid)
      ensures var filtered := ApplyFilter(slots, onlyCompatible);
              |filtered| > 0 && !changed ==>
                slotGuid == old(slotGuid)
                && selectedIndex == MaxI(0, IndexOf(Guids(filtered), old(slotGuid)))
                && notice == NoticeFor(filtered[selectedIndex])
      ensures var filtered := ApplyFilter(slots, onlyCompatible);
              |filtered| > 0 && changed ==>
                selectedIndex == picked
                && slotGuid == (if 0 <= picked < |filtered| then filtered[picked].guid else old(slotGuid))
                && notice == NoticeFor(filtered[ClampI(picked, 0, |filtered| - 1)])
    {
      var currentGuid := slotGuid;
      var filtered := ApplyFilter(slots, onlyCompatible);
      if |filtered| == 0 {
        return EmptyFilterInfo;
      }
      var guids := Guids(filtered);
      selectedIndex := IndexOf(guids, currentGuid);
      if selectedIndex < 0 {
        selectedIndex := 0;
      }
      if changed {
        selectedIndex := picked;
      }
      if changed && selectedIndex >= 0 && selectedIndex < |guids| {
        slotGuid := guids[selectedIndex];
      }
      var selected := filtered[ClampI(selectedIndex, 0, |filtered| - 1)];
      notice := NoticeFor(selected);
    }
  }

  /** Drawing again without a change keeps the selection: after an unchanged draw, the entry
      shown carries the stored guid whenever that guid is listed. */
  lemma SelectionFollowsGuid(filtered: seq<SlotView>, guid: string)
    requires |filtered| > 0
    requires guid in Guids(filtered)
    ensures filtered[MaxI(0, IndexOf(Guids(filtered), guid))].guid == guid
  {
  }
}
