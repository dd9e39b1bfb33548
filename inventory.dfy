/**
 * The single-tenant inventory component: an item list that AddItem appends
 * to, RemoveItem removes from and EquipItem updates in place, with every
 * successful change broadcast to listeners together with the new list.
 */
module Inventory {
  import opened StandardTypes
  import opened ChainDelegates
  import opened Text

  /** FInterverseInventoryItem. `slot` is an int32 in the plugin. */
  datatype InventoryItem = InventoryItem(asset: Asset, ownerGlobalId: string, isEquipped: bool, slot: int)

  /** INDEX_NONE. */
  const IndexNone: int := -1

  /** The item holds the asset: its id equals `id` under FString's case-insensitive `==`. */
  predicate HoldsId(item: InventoryItem, id: string) {
    EqualsIgnoreCase(item.asset.assetId, id)
  }

  /** The position of the first item holding the asset, or INDEX_NONE. */
  function IndexOfAsset(items: seq<InventoryItem>, id: string): (r: int)
    ensures -1 <= r < |items|
    ensures r >= 0 ==> HoldsId(items[r], id)
    ensures forall j :: 0 <= j < |items| && (r < 0 || j < r) ==> !HoldsId(items[j], id)
    decreases |items|
  {
    if |items| == 0 then IndexNone
    else if HoldsId(items[0], id) then 0
    else
      var r := IndexOfAsset(items[1..], id);
      if r < 0 then IndexNone else r + 1
  }

  /** Ids that differ only in letter case find the same item. */
  lemma {:induction false} IndexOfIgnoresCase(items: seq<InventoryItem>, a: string, b: string)
    requires EqualsIgnoreCase(a, b)
    ensures IndexOfAsset(items, a) == IndexOfAsset(items, b)
    decreases |items|
  {
    if |items| > 0 {
      var id := items[0].asset.assetId;
      EqualsIgnoreCaseIsEquivalence(id, a, b);
      EqualsIgnoreCaseIsEquivalence(id, b, a);
      EqualsIgnoreCaseIsEquivalence(a, b, id);
      IndexOfIgnoresCase(items[1..], a, b);
    }
  }

  /** Some item holds the asset. */
  predicate HoldsAsset(items: seq<InventoryItem>, id: string) {
    IndexOfAsset(items, id) != IndexNone
  }

  /** The list after AddItem: one unequipped item appended, its slot the former item count. */
  function AppendItem(items: seq<InventoryItem>, asset: Asset): seq<InventoryItem> {
    items + [InventoryItem(asset, "", false, |items|)]
  }

  /** The list after RemoveItem: the first item holding the asset is dropped, nothing else changes. */
  function RemoveFirst(items: seq<InventoryItem>, id: string): seq<InventoryItem> {
    var i := IndexOfAsset(items, id);
    if i == IndexNone then items else items[..i] + items[i + 1..]
  }

  /** An item unequipped when it belongs to the category, unchanged otherwise. */
  function UnequipIn(item: InventoryItem, category: ItemCategory): InventoryItem {
    if item.asset.category == category then item.(isEquipped := false) else item
  }

  /**
   * The list after EquipItem: the first item holding the asset is equipped and
   * every other item of its category, whoever owns it, is unequipped.
   */
  function EquipFirst(items: seq<InventoryItem>, id: string): seq<InventoryItem> {
    var i := IndexOfAsset(items, id);
    if i == IndexNone then items
    else
      seq(|items|, j requires 0 <= j < |items| =>
        if j == i then items[j].(isEquipped := true) else UnequipIn(items[j], items[i].asset.category))
  }

  /** The items of one category, in list order. */
  function FilterByCategory(items: seq<InventoryItem>, category: ItemCategory): seq<InventoryItem>
    decreases |items|
  {
    if |items| == 0 then []
    else
      var last := items[|items| - 1];
      FilterByCategory(items[..|items| - 1], category) + (if last.asset.category == category then [last] else [])
  }

  /** How many items of the category are equipped. */
  function CountEquipped(items: seq<InventoryItem>, category: ItemCategory): nat
    decreases |items|
  {
    if |items| == 0 then 0
    else CountEquipped(items[1..], category) + (if items[0].asset.category == category && items[0].isEquipped then 1 else 0)
  }

  /** No deduplication: adding an asset twice gives two items, in consecutive slots. */
  lemma AddTwiceKeepsBoth(items: seq<InventoryItem>, asset: Asset)
    ensures var r := AppendItem(AppendItem(items, asset), asset);
            && |r| == |items| + 2
            && r[..|items|] == items
            && r[|items|] == InventoryItem(asset, "", false, |items|)
            && r[|items| + 1] == InventoryItem(asset, "", false, |items| + 1)
  {
  }

  /**
   * Removal drops exactly the first match: the items before it stay in place,
   * the items after it move down one position keeping their slot numbers.
   */
  lemma RemoveFirstKeepsOthers(items: seq<InventoryItem>, id: string)
    ensures var i := IndexOfAsset(items, id);
            var r := RemoveFirst(items, id);
            && (i == IndexNone ==> r == items)
            && (i != IndexNone ==>
                  && |r| == |items| - 1
                  && (forall j :: 0 <= j < i ==> r[j] == items[j])
                  && (forall j :: i <= j < |r| ==> r[j] == items[j + 1])
                  && multiset(r) + multiset{items[i]} == multiset(items))
  {
    var i := IndexOfAsset(items, id);
    if i != IndexNone {
      assert items == items[..i] + [items[i]] + items[i + 1..];
    }
  }

  /** Exactly one equipped item of a category when the equipped ones of it are exactly the item at `k`. */
  lemma {:induction false} CountEquippedExactlyOne(items: seq<InventoryItem>, category: ItemCategory, k: nat)
    requires k < |items|
    requires forall j :: 0 <= j < |items| ==> (items[j].asset.category == category && items[j].isEquipped <==> j == k)
    ensures CountEquipped(items, category) == 1
    decreases |items|
  {
    if k == 0 {
      CountEquippedNone(items[1..], category);
    } else {
      CountEquippedExactlyOne(items[1..], category, k - 1);
    }
  }

  lemma {:induction false} CountEquippedNone(items: seq<InventoryItem>, category: ItemCategory)
    requires forall j :: 0 <= j < |items| ==> !(items[j].asset.category == category && items[j].isEquipped)
    ensures CountEquipped(items, category) == 0
    decreases |items|
  {
    if |items| > 0 {
      CountEquippedNone(items[1..], category);
    }
  }

  /**
   * After a successful equip, the chosen item is the one and only equipped item
   * of its category; items of other categories are untouched; only equip flags change.
   */
  lemma EquipFirstExclusive(items: seq<InventoryItem>, id: string)
    requires HoldsAsset(items, id)
    ensures var i := IndexOfAsset(items, id);
            var category := items[i].asset.category;
            var r := EquipFirst(items, id);
            && |r| == |items|
            && r[i].isEquipped
            && (forall j :: 0 <= j < |r| && j != i && items[j].asset.category == category ==> !r[j].isEquipped)
            && (forall j :: 0 <= j < |r| && items[j].asset.category != category ==> r[j] == items[j])
            && (forall j :: 0 <= j < |r| ==> r[j] == items[j].(isEquipped := r[j].isEquipped))
            && CountEquipped(r, category) == 1
  {
    var i := IndexOfAsset(items, id);
    CountEquippedExactlyOne(EquipFirst(items, id), items[i].asset.category, i);
  }

  /** Lists that differ only in equip flags have their assets at the same positions. */
  lemma {:induction false} IndexOfIgnoresFlags(a: seq<InventoryItem>, b: seq<InventoryItem>, id: string)
    requires |a| == |b|
    requires forall j :: 0 <= j < |a| ==> a[j].asset == b[j].asset
    ensures IndexOfAsset(a, id) == IndexOfAsset(b, id)
    decreases |a|
  {
    if |a| > 0 {
      IndexOfIgnoresFlags(a[1..], b[1..], id);
    }
  }

  /**
   * Equipping A and then B of the same category leaves B equipped and A
   * unequipped; items of other categories are as they were.
   */
  lemma {:induction false} EquipSecondUnequipsFirst(items: seq<InventoryItem>, a: string, b: string)
    requires HoldsAsset(items, a) && HoldsAsset(items, b)
    requires IndexOfAsset(items, a) != IndexOfAsset(items, b)
    requires items[IndexOfAsset(items, a)].asset.category == items[IndexOfAsset(items, b)].asset.category
    ensures var ia, ib := IndexOfAsset(items, a), IndexOfAsset(items, b);
            var r := EquipFirst(EquipFirst(items, a), b);
            && |r| == |items|
            && !r[ia].isEquipped && r[ib].isEquipped
            && (forall j :: 0 <= j < |r| && items[j].asset.category != items[ia].asset.category ==> r[j] == items[j])
  {
    var once := EquipFirst(items, a);
    EquipFirstExclusive(items, a);
    IndexOfIgnoresFlags(items, once, b);
    EquipFirstExclusive(once, b);
  }

  /** Membership in the category filter: exactly the items of that category. */
  lemma {:induction false} FilterByCategoryMembers(items: seq<InventoryItem>, category: ItemCategory)
    ensures forall x :: x in FilterByCategory(items, category) <==> x in items && x.asset.category == category
    decreases |items|
  {
    if |items| > 0 {
      var init := items[..|items| - 1];
      FilterByCategoryMembers(init, category);
      assert items == init + [items[|items| - 1]];
    }
  }

  /** UInterverseInventoryComponent. */
  class InventoryComponent {
    /** Items. */
    var items: seq<InventoryItem>
    /** The item lists carried by the OnInventoryUpdated broadcasts so far, oldest first. */
    var updates: seq<seq<InventoryItem>>

    constructor ()
      ensures items == [] && updates == []
    {
      items := [];
      updates := [];
    }

    /** AddItem: always succeeds, appends with the next slot and broadcasts. */
    method AddItem(asset: Asset) returns (ok: bool)
      modifies this
      ensures ok
      ensures items == AppendItem(old(items), asset)
      ensures updates == old(updates) + [items]
    {
      var newItem := InventoryItem(asset, "", false, |items|);
      items := items + [newItem];
      updates := updates + [items];
      ok := true;
    }

    /** IndexOfByPredicate on the asset id. */
    method FindAsset(id: string) returns (index: int)
      ensures index == IndexOfAsset(items, id)
    {
      index := 0;
      while index < |items|
        invariant 0 <= index <= |items|
        invariant forall j :: 0 <= j < index ==> !HoldsId(items[j], id)
      {
        if HoldsId(items[index], id) {
          return;
        }
        index := index + 1;
      }
      index := IndexNone;
    }

    /** RemoveItem: drop the first item holding the asset; false, with nothing changed, when none does. */
    method RemoveItem(id: string) returns (ok: bool)
      modifies this
      ensures ok == HoldsAsset(old(items), id)
      ensures items == RemoveFirst(old(items), id)
      ensures updates == if ok then old(updates) + [items] else old(updates)
    {
      var index := FindAsset(id);
      if index != IndexNone {
        items := items[..index] + items[index + 1..];
        updates := updates + [items];
        return true;
      }
      return false;
    }

    /**
     * EquipItem: for the first item holding the asset, unequip every item of
     * its category, then equip it; false, with nothing changed, when none holds it.
     */
    method EquipItem(id: string) returns (ok: bool)
      modifies this
      ensures ok == HoldsAsset(old(items), id)
      ensures items == EquipFirst(old(items), id)
      ensures updates == if ok then old(updates) + [items] else old(updates)
    {
      var i := 0;
      while i < |items|
        invariant 0 <= i <= |items|
        invariant items == old(items) && updates == old(updates)
        invariant forall j :: 0 <= j < i ==> !HoldsId(items[j], id)
      {
        if HoldsId(items[i], id) {
          var category := items[i].asset.category;
          var j := 0;
          while j < |items|
            invariant 0 <= j <= |items| == |old(items)|
            invariant updates == old(updates)
            invariant forall k :: 0 <= k < j ==> items[k] == UnequipIn(old(items)[k], category)
            invariant forall k :: j <= k < |items| ==> items[k] == old(items)[k]
          {
            if items[j].asset.category == category {
              items := items[j := items[j].(isEquipped := false)];
            }
            j := j + 1;
          }
          items := items[i := items[i].(isEquipped := true)];
          updates := updates + [items];
          return true;
        }
        i := i + 1;
      }
      return false;
    }

    /** GetItemsByCategory: the items of the category, in list order. */
    method GetItemsByCategory(category: ItemCategory) returns (filtered: seq<InventoryItem>)
      ensures filtered == FilterByCategory(items, category)
    {
      filtered := [];
      var i := 0;
      while i < |items|
        invariant 0 <= i <= |items|
        invariant filtered == FilterByCategory(items[..i], category)
      {
        assert items[..i + 1][..i] == items[..i];
        if items[i].asset.category == category {
          filtered := filtered + [items[i]];
        }
        i := i + 1;
      }
      assert items[..i] == items;
    }

    /** HasItem: some item holds the asset. */
    function HasItem(id: string): (b: bool)
      reads this
      ensures b <==> exists j :: 0 <= j < |items| && EqualsIgnoreCase(items[j].asset.assetId, id)
    {
      HoldsAsset(items, id)
    }

    /** GetInventorySize: the number of items. */
    function GetInventorySize(): int
      reads this
    {
      |items|
    }
  }
}
