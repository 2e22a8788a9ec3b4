/** The closed catalogue of items (`ItemId` in buckshot_roulette_cli.py). */
module Catalog {

  datatype ItemId =
    | MagnifyingGlass
    | Beer
    | Handcuffs
    | HandSaw
    | Inverter
    | BurnerPhone
    | Cigarette
    | Adrenaline

  /** `list(ItemId)`: every item once, in declaration order. */
  const AllItems: seq<ItemId> :=
    [MagnifyingGlass, Beer, Handcuffs, HandSaw, Inverter, BurnerPhone, Cigarette, Adrenaline]

  predicate Distinct(s: seq<ItemId>) {
    forall i, j :: 0 <= i < j < |s| ==> s[i] != s[j]
  }

  /**
   * A hand `random.sample(list(ItemId), k)` can return for some
   * `k = random.randint(lo, hi)`: between `lo` and `hi` distinct items.
   */
  predicate IsHand(hand: seq<ItemId>, lo: int, hi: int) {
    lo <= |hand| <= hi && Distinct(hand)
  }

  lemma {:induction false} DistinctCardinality(s: seq<ItemId>)
    requires Distinct(s)
    ensures |set x | x in s| == |s|
  {
    if s != [] {
      var t := s[..|s| - 1];
      DistinctCardinality(t);
      assert (set x | x in s) == (set x | x in t) + {s[|s| - 1]};
      assert s[|s| - 1] !in t;
    }
  }

  lemma AllItemsListsEveryItem(x: ItemId)
    ensures x in AllItems
  {
    match x
    case MagnifyingGlass => assert AllItems[0] == x;
    case Beer => assert AllItems[1] == x;
    case Handcuffs => assert AllItems[2] == x;
    case HandSaw => assert AllItems[3] == x;
    case Inverter => assert AllItems[4] == x;
    case BurnerPhone => assert AllItems[5] == x;
    case Cigarette => assert AllItems[6] == x;
    case Adrenaline => assert AllItems[7] == x;
  }

  lemma CatalogSize()
    ensures |set x | x in AllItems| == |AllItems|
  {
    assert Distinct(AllItems);
    DistinctCardinality(AllItems);
  }

  /**
   * A sample drawn without replacement never holds more than the eight
   * catalogue items, so a dealt inventory has at most eight entries.
   */
  lemma HandFitsCatalog(hand: seq<ItemId>, lo: int, hi: int)
    requires IsHand(hand, lo, hi)
    ensures |hand| <= |AllItems|
  {
    DistinctCardinality(hand);
    CatalogSize();
    var held := set x | x in hand;
    var every := set x | x in AllItems;
    forall x | x in held ensures x in every {
      AllItemsListsEveryItem(x);
    }
    assert every == held + (every - held);
    assert |every| == |held| + |every - held|;
  }
}
