/** The look-detail modal (src/components/LookDetailModal.tsx): per-category
    product navigation over the five item slots of the selected look. The
    component's `modalItemIndices` state is the one field of the class; the
    look itself is the `selectedLookData` prop, passed to each operation. */
module LookDetailModal {
  import opened Common
  import opened Types

  /** The five slot names, in display order. */
  const Categories: seq<string> := ["items1", "items2", "items3", "items4", "items5"]

  /** The key of each slot in `modalItemIndices`. */
  const IndexKeys: seq<string> := ["item1", "item2", "item3", "item4", "item5"]

  /** `category.replace('items', 'item')`, for names in which the only
      occurrence of "items" can be at the front. */
  function IndexKey(category: string): string {
    if StartsWith(category, "items") then "item" + category[5..] else category
  }

  /** The slot name maps to its index key, and an index key (as the buttons
      pass it back) maps to itself. */
  lemma IndexKeysOfCategories()
    ensures forall j :: 0 <= j < 5 ==> IndexKey(Categories[j]) == IndexKeys[j]
    ensures forall j :: 0 <= j < 5 ==> IndexKey(IndexKeys[j]) == IndexKeys[j]
  {
    assert "items1"[5..] == "1" && "items2"[5..] == "2" && "items3"[5..] == "3";
    assert "items4"[5..] == "4" && "items5"[5..] == "5";
    assert forall j :: 0 <= j < 5 ==> IndexKeys[j][4] == "12345"[j];
    assert forall j :: 0 <= j < 5 ==> !StartsWith(IndexKeys[j], "items");
  }

  /** The index keys are pairwise distinct, so updating one never touches the
      index of another slot. */
  lemma IndexKeysDistinct()
    ensures forall i, j :: 0 <= i < j < 5 ==> IndexKeys[i] != IndexKeys[j]
  {
    assert forall j :: 0 <= j < 5 ==> IndexKeys[j][4] == "12345"[j];
  }

  /** `modalItemIndices[key] || 0`: a missing key reads as 0. */
  function IndexOf(m: map<string, int>, key: string): int {
    if key in m then m[key] else 0
  }

  /** The list of products of a slot as the modal sees it: a non-array value
      is a one-element list, a missing one is empty. */
  function NormalizeSlot(slot: Slot): (items: seq<ProductItem>)
    ensures slot.NoItems? ==> items == []
    ensures slot.ItemList? ==> items == slot.items
    ensures slot.NonArray? ==> items == [slot.item]
  {
    match slot
    case NoItems => []
    case ItemList(items) => items
    case NonArray(item) => [item]
  }

  /** One entry of `getItemsForDisplay`: the spread product (absent when the
      index is outside the list), its category key, the index and the list
      length. */
  datatype DisplayItem = DisplayItem(item: Option<ProductItem>, category: string, currentIndex: int, totalItems: int)

  /** The entry of slot `n` (1 .. 5) for the indices `m`. */
  function EntryFor(look: LookData, m: map<string, int>, n: int): (e: DisplayItem)
    requires 1 <= n <= 5
    ensures e.category == IndexKeys[n - 1] && e.currentIndex == IndexOf(m, IndexKeys[n - 1])
    ensures e.totalItems == |NormalizeSlot(SlotAt(look, n))|
    ensures e.item.Some? <==> 0 <= e.currentIndex < e.totalItems
    ensures e.item.Some? ==> e.item.value == NormalizeSlot(SlotAt(look, n))[e.currentIndex]
  {
    var items := NormalizeSlot(SlotAt(look, n));
    var currentIndex := IndexOf(m, IndexKeys[n - 1]);
    DisplayItem(if 0 <= currentIndex < |items| then Some(items[currentIndex]) else None,
                IndexKeys[n - 1], currentIndex, |items|)
  }

  /** Slot `n` contributes its entry when its list is not empty. */
  function Candidate(look: LookData, m: map<string, int>, n: int): Option<DisplayItem>
    requires 1 <= n <= 5
  {
    if |NormalizeSlot(SlotAt(look, n))| > 0 then Some(EntryFor(look, m, n)) else None
  }

  function Candidates(look: LookData, m: map<string, int>): (cs: seq<Option<DisplayItem>>)
    ensures |cs| == 5 && forall j :: 0 <= j < 5 ==> cs[j] == Candidate(look, m, j + 1)
  {
    [Candidate(look, m, 1), Candidate(look, m, 2), Candidate(look, m, 3),
     Candidate(look, m, 4), Candidate(look, m, 5)]
  }

  /** What `getItemsForDisplay` returns. */
  function DisplayItems(look: LookData, m: map<string, int>): seq<DisplayItem> {
    Somes(Candidates(look, m))
  }

  /** `getItemsForDisplay` emits at most five entries, and a slot's entry
      exactly when the slot is not empty. */
  lemma DisplayItemsCover(look: LookData, m: map<string, int>)
    ensures |DisplayItems(look, m)| <= 5
    ensures forall n :: 1 <= n <= 5 ==>
              (EntryFor(look, m, n) in DisplayItems(look, m) <==> |NormalizeSlot(SlotAt(look, n))| > 0)
  {
    var cs := Candidates(look, m);
    IndexKeysDistinct();
    forall n | 1 <= n <= 5
      ensures EntryFor(look, m, n) in DisplayItems(look, m) <==> |NormalizeSlot(SlotAt(look, n))| > 0
    {
      SomesMembership(cs, EntryFor(look, m, n));
      if Some(EntryFor(look, m, n)) in cs {
        var k :| 0 <= k < 5 && cs[k] == Some(EntryFor(look, m, n));
        assert IndexKeys[k] == IndexKeys[n - 1];
      }
    }
  }

  /** Every entry is the entry of a non-empty slot. */
  lemma DisplayItemsFromSlots(look: LookData, m: map<string, int>)
    ensures forall e :: e in DisplayItems(look, m) ==>
              exists n :: 1 <= n <= 5 && |NormalizeSlot(SlotAt(look, n))| > 0 && e == EntryFor(look, m, n)
  {
    var cs := Candidates(look, m);
    forall e | e in DisplayItems(look, m)
      ensures exists n :: 1 <= n <= 5 && |NormalizeSlot(SlotAt(look, n))| > 0 && e == EntryFor(look, m, n)
    {
      SomesMembership(cs, e);
      var k :| 0 <= k < 5 && cs[k] == Some(e);
      assert |NormalizeSlot(SlotAt(look, k + 1))| > 0 && e == EntryFor(look, m, k + 1);
    }
  }

  /** The entries come in slot order, so no slot appears twice. */
  lemma DisplayItemsOrdered(look: LookData, m: map<string, int>)
    ensures forall i, j :: 0 <= i < j < |DisplayItems(look, m)| ==>
              Position(DisplayItems(look, m)[i].category) < Position(DisplayItems(look, m)[j].category)
  {
    var cs := Candidates(look, m);
    var r := DisplayItems(look, m);
    SomesEnumerate(cs);
    var ps := SomePositions(cs);
    forall i | 0 <= i < |r|
      ensures Position(r[i].category) == ps[i]
    {
      assert cs[ps[i]] == Some(r[i]);
    }
  }

  /** The slot an index key names (0 .. 4), 5 for any other text. */
  function Position(key: string): (p: nat)
    ensures p <= 5
    ensures p < 5 ==> IndexKeys[p] == key
    ensures forall j :: 0 <= j < 5 && IndexKeys[j] == key ==> p == j
  {
    IndexKeysDistinct();
    if key == "item1" then 0 else if key == "item2" then 1 else if key == "item3" then 2
    else if key == "item4" then 3 else if key == "item5" then 4 else 5
  }

  /** The five index keys, all at 0: the state the reset effect installs. */
  function ZeroIndices(): (m: map<string, int>)
    ensures forall k :: k in m <==> k in IndexKeys
    ensures forall k :: k in m ==> m[k] == 0
  {
    map k | k in IndexKeys :: 0
  }

  /** `handleNextItem`'s updater: the named index moves one step forward,
      stopping at the last product; every other key keeps its value. */
  function NextIndices(m: map<string, int>, category: string, total: int): (r: map<string, int>)
    ensures r.Keys == m.Keys + {category}
    ensures forall k :: k in m && k != category ==> r[k] == m[k]
    ensures IndexOf(m, category) < total - 1 ==> r[category] == IndexOf(m, category) + 1
    ensures IndexOf(m, category) >= total - 1 ==> r[category] == total - 1
    ensures 0 <= IndexOf(m, category) < total ==> 0 <= r[category] < total
  {
    var next := IndexOf(m, category) + 1;
    m[category := if next < total - 1 then next else total - 1]
  }

  /** `handlePreviousItem`'s updater: the named index moves one step back,
      never below 0; every other key keeps its value. */
  function PreviousIndices(m: map<string, int>, category: string): (r: map<string, int>)
    ensures r.Keys == m.Keys + {category}
    ensures forall k :: k in m && k != category ==> r[k] == m[k]
    ensures r[category] >= 0
    ensures IndexOf(m, category) >= 1 ==> r[category] == IndexOf(m, category) - 1
    ensures IndexOf(m, category) < 1 ==> r[category] == 0
  {
    var previous := IndexOf(m, category) - 1;
    m[category := if previous > 0 then previous else 0]
  }

  /** One step forward then one back returns to the same product, unless the
      step forward was blocked at the last one. */
  lemma NextThenPrevious(m: map<string, int>, category: string, total: int)
    requires 0 <= IndexOf(m, category) < total - 1
    ensures IndexOf(PreviousIndices(NextIndices(m, category, total), category), category) == IndexOf(m, category)
  {
  }

  /** One step back then one forward returns to the same product, unless the
      step back was blocked at the first one. */
  lemma PreviousThenNext(m: map<string, int>, category: string, total: int)
    requires 0 < IndexOf(m, category) < total
    ensures IndexOf(NextIndices(PreviousIndices(m, category), category, total), category) == IndexOf(m, category)
  {
  }

  /** The render's navigation buttons. */
  predicate ShowsPrevious(e: DisplayItem) { e.currentIndex > 0 }
  predicate ShowsNext(e: DisplayItem) { e.currentIndex < e.totalItems - 1 }

  /** Every non-empty slot's index points at one of its products. */
  predicate IndicesInRange(look: LookData, m: map<string, int>) {
    forall n :: 1 <= n <= 5 && |NormalizeSlot(SlotAt(look, n))| > 0 ==>
      0 <= IndexOf(m, IndexKeys[n - 1]) < |NormalizeSlot(SlotAt(look, n))|
  }

  /** After the reset every slot is at its first product. */
  lemma ResetIsInRange(look: LookData)
    ensures IndicesInRange(look, ZeroIndices())
    ensures forall e :: e in DisplayItems(look, ZeroIndices()) ==>
              e.currentIndex == 0 && e.item.Some? && !ShowsPrevious(e)
  {
    DisplayItemsFromSlots(look, ZeroIndices());
  }

  /** `handleNextItem(category, totalItems)` issued from a displayed entry
      keeps every index in range. */
  lemma NextKeepsInRange(look: LookData, m: map<string, int>, n: int)
    requires 1 <= n <= 5 && IndicesInRange(look, m)
    ensures IndicesInRange(look, NextIndices(m, IndexKeys[n - 1], |NormalizeSlot(SlotAt(look, n))|))
  {
    IndexKeysDistinct();
  }

  /** `handlePreviousItem(category)` keeps every index in range. */
  lemma PreviousKeepsInRange(look: LookData, m: map<string, int>, n: int)
    requires 1 <= n <= 5 && IndicesInRange(look, m)
    ensures IndicesInRange(look, PreviousIndices(m, IndexKeys[n - 1]))
  {
    IndexKeysDistinct();
  }

  /** While the indices are in range every entry shows a real product. */
  lemma InRangeShowsProducts(look: LookData, m: map<string, int>)
    requires IndicesInRange(look, m)
    ensures forall e :: e in DisplayItems(look, m) ==> e.item.Some? && 0 <= e.currentIndex < e.totalItems
  {
    DisplayItemsFromSlots(look, m);
  }

  /** A shown "next" button advances its slot by exactly one product and a
      hidden one would change nothing; likewise for "previous". The buttons
      pass `category.replace('items', 'item')` of an index key, which is
      the key itself. */
  lemma ButtonsMatchHandlers(look: LookData, m: map<string, int>, e: DisplayItem)
    requires IndicesInRange(look, m) && e in DisplayItems(look, m)
    ensures IndexKey(e.category) == e.category
    ensures ShowsNext(e) ==> IndexOf(NextIndices(m, e.category, e.totalItems), e.category) == e.currentIndex + 1
    ensures !ShowsNext(e) ==> IndexOf(NextIndices(m, e.category, e.totalItems), e.category) == e.currentIndex
    ensures ShowsPrevious(e) ==> IndexOf(PreviousIndices(m, e.category), e.category) == e.currentIndex - 1
    ensures !ShowsPrevious(e) ==> IndexOf(PreviousIndices(m, e.category), e.category) == e.currentIndex
  {
    DisplayItemsFromSlots(look, m);
    IndexKeysOfCategories();
  }

  /** The card title: more than 60 characters are cut to 60 and followed by
      "...". */
  function DisplayTitle(title: string): (t: string)
    ensures |title| <= 60 ==> t == title
    ensures |title| > 60 ==> |t| == 63 && t[..60] == title[..60] && t[60..] == "..."
  {
    if |title| > 60 then title[..60] + "..." else title
  }

  /** A shown title never exceeds 63 characters and always starts like the
      title. */
  lemma DisplayTitleBounded(title: string)
    ensures |DisplayTitle(title)| <= 63
    ensures var n := if |title| > 60 then 60 else |title|;
            DisplayTitle(title)[..n] == title[..n]
  {
  }

  class LookDetailModal {
    /** `modalItemIndices`: the current product of each slot, by index key. */
    var modalItemIndices: map<string, int>

    constructor ()
      ensures modalItemIndices == map[]
    {
      modalItemIndices := map[];
    }

    /** The effect run when `selectedLookData` changes: with a look, every
        slot goes back to its first product (and no other key remains). */
    method SelectedLookChanged(selectedLookData: Option<LookData>)
      modifies this
      ensures selectedLookData.Some? ==> modalItemIndices == ZeroIndices()
      ensures selectedLookData.None? ==> modalItemIndices == old(modalItemIndices)
    {
      if selectedLookData.None? {
        return;
      }
      IndexKeysOfCategories();
      var initialIndices: map<string, int> := map[];
      var i := 0;
      while i < |Categories|
        invariant 0 <= i <= 5
        invariant initialIndices.Keys == set j | 0 <= j < i :: IndexKeys[j]
        invariant forall k :: k in initialIndices ==> initialIndices[k] == 0
      {
        var indexKey := IndexKey(Categories[i]);
        initialIndices := initialIndices[indexKey := 0];
        i := i + 1;
      }
      assert initialIndices.Keys == ZeroIndices().Keys;
      modalItemIndices := initialIndices;
    }

    method HandleNextItem(category: string, total: int)
      modifies this
      ensures modalItemIndices == NextIndices(old(modalItemIndices), category, total)
    {
      var prev := modalItemIndices;
      var next := (if category in prev then prev[category] else 0) + 1;
      modalItemIndices := prev[category := if next < total - 1 then next else total - 1];
    }

    method HandlePreviousItem(category: string)
      modifies this
      ensures modalItemIndices == PreviousIndices(old(modalItemIndices), category)
    {
      var prev := modalItemIndices;
      var previous := (if category in prev then prev[category] else 0) - 1;
      modalItemIndices := prev[category := if previous > 0 then previous else 0];
    }

    /** `getItemsForDisplay`, a `forEach` over the slot names pushing the entry
        of each non-empty slot. */
    method GetItemsForDisplay(selectedLookData: LookData) returns (displayItems: seq<DisplayItem>)
      ensures displayItems == DisplayItems(selectedLookData, modalItemIndices)
    {
      IndexKeysOfCategories();
      ghost var cs := Candidates(selectedLookData, modalItemIndices);
      displayItems := [];
      var i := 0;
      while i < |Categories|
        invariant 0 <= i <= 5
        invariant displayItems == Somes(cs[..i])
      {
        var items := NormalizeSlot(SlotAt(selectedLookData, i + 1));
        if |items| > 0 {
          var indexKey := IndexKey(Categories[i]);
          var currentIndex := if indexKey in modalItemIndices then modalItemIndices[indexKey] else 0;
          var item := if 0 <= currentIndex < |items| then Some(items[currentIndex]) else None;
          displayItems := displayItems + [DisplayItem(item, indexKey, currentIndex, |items|)];
        }
        assert cs[..i + 1][..i] == cs[..i];
        i := i + 1;
      }
      assert cs[..5] == cs;
    }
  }
}
