/**
 * The checklist definition: a read-only tree of sections and items that the
 * application fetches once at start-up and never changes afterwards.
 */
module Checklist {

  import opened Wrappers

  /** One checklist question. Only the fields the engine reads are kept. */
  datatype Item = Item(code: string, priority: string)

  /** A named, ordered group of items. */
  datatype Section = Section(id: string, items: seq<Item>)

  /** The fetched JSON document (`checklistData`). */
  datatype Definition = Definition(sections: seq<Section>)

  /** Every item of every section, in document order. */
  function AllItems(sections: seq<Section>): seq<Item>
  {
    if sections == [] then []
    else AllItems(sections[..|sections| - 1]) + sections[|sections| - 1].items
  }

  /** The number of items of the given sections, section by section. */
  function ItemCount(sections: seq<Section>): nat
  {
    if sections == [] then 0
    else ItemCount(sections[..|sections| - 1]) + |sections[|sections| - 1].items|
  }

  /** `getTotalItems`: 0 while no definition is loaded. */
  function TotalItems(data: Option<Definition>): (n: nat)
    ensures data.None? ==> n == 0
    ensures data.Some? ==> n == |AllItems(data.value.sections)|
  {
    match data
    case None => 0
    case Some(d) =>
      ItemCountIsAllItemsLength(d.sections);
      ItemCount(d.sections)
  }

  /** The section-by-section count is the length of the flattened item list. */
  lemma {:induction false} ItemCountIsAllItemsLength(sections: seq<Section>)
    ensures ItemCount(sections) == |AllItems(sections)|
  {
    if sections != [] {
      ItemCountIsAllItemsLength(sections[..|sections| - 1]);
    }
  }

  /** `getTotalItems`, accumulating `n += sec.items.length` section by section. */
  method GetTotalItems(data: Option<Definition>) returns (n: nat)
    ensures n == |AllItems(if data.Some? then data.value.sections else [])|
  {
    if data.None? {
      return 0;
    }
    var sections := data.value.sections;
    n := 0;
    var i := 0;
    while i < |sections|
      invariant 0 <= i <= |sections|
      invariant n == ItemCount(sections[..i])
    {
      assert sections[..i + 1][..i] == sections[..i];
      n := n + |sections[i].items|;
      i := i + 1;
    }
    assert sections[..i] == sections;
    ItemCountIsAllItemsLength(sections);
  }
}
