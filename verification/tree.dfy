/** The tree information the import script fetches once and then only
    reads: the taxon Mammalia, the id of the taxon tree definition and the
    definition item of each of the four ranks. */
module Tree {
  import opened Outcomes
  import opened Store
  import opened Remote
  import opened TaxonHelpers

  /** Every rank has a slot, and a fetched definition item is one the server serves. */
  ghost predicate ItemsServed(items: map<Rank, Option<Record>>) {
    && (forall k: Rank :: k in items)
    && (forall k: Rank | k in items && items[k].Some? :: ServedFrom(DefItemTable, items[k].value))
  }

  lemma ItemsServedUpdate(items: map<Rank, Option<Record>>, k: Rank, item: Record)
    requires ItemsServed(items) && ServedFrom(DefItemTable, item)
    ensures ItemsServed(items[k := Some(item)])
  {
  }

  /** The id of the definition item of rank `k` in `items`, or -1 while it
      is not fetched. */
  function ItemIdIn(items: map<Rank, Option<Record>>, k: Rank): int {
    if k in items && items[k].Some? && IdOf(items[k].value).Ok? then IdOf(items[k].value).value else -1
  }

  /** The values of the globals MAMMALIA, TREE_DEF_ID and DEF_ITEMS, which
      nothing modifies once fetch_tree_info has set them. */
  datatype TreeData = TreeData(mammalia: Option<Record>, treeDefId: Option<int>, defItems: map<Rank, Option<Record>>)
  {
    /** What tree_info_fetched checks: no global is None. */
    predicate Fetched()
    {
      && mammalia.Some? && treeDefId.Some?
      && forall k: Rank :: k in defItems && defItems[k].Some?
    }

    /** Every rank has a slot; a fetched definition item is one the server
        serves; Mammalia, once known, has a text name. */
    ghost predicate Shaped()
    {
      && ItemsServed(defItems)
      && (mammalia.Some? ==> TextField(mammalia.value, "name").Ok?)
    }

    /** Mammalia is known and has an id. */
    predicate MammaliaHasId()
    {
      mammalia.Some? && IdOf(mammalia.value).Ok?
    }

    /** `Shaped`, and Mammalia is a taxon stored in `db`. */
    ghost predicate Valid(db: Db)
    {
      Shaped() && (mammalia.Some? ==> NamedTaxonIn(db, mammalia.value))
    }

    lemma ValidEvolves(d1: Db, d2: Db)
      requires Valid(d1) && Evolves(d1, d2)
      ensures Valid(d2)
    {
      if mammalia.Some? {
        NamedTaxonPreserved(d1, d2, mammalia.value);
      }
    }

    /** `DEF_ITEMS[rank]`; the empty record while it is not fetched. */
    function Item(k: Rank): Record
    {
      if k in defItems && defItems[k].Some? then defItems[k].value else map[]
    }

    /** `DEF_ITEMS[rank]["id"]`. */
    function ItemId(k: Rank): (id: int)
      ensures Fetched() && Shaped() ==> IdOf(Item(k)) == Ok(id) && id >= 0
    {
      ItemIdIn(defItems, k)
    }

    /** `TREE_DEF_ID`; -1 while it is not fetched. */
    function TreeDefId(): int
    {
      if treeDefId.Some? then treeDefId.value else -1
    }

    /** `MAMMALIA["name"]`; empty while Mammalia is not fetched. */
    function MammaliaName(): string
    {
      if mammalia.Some? && TextField(mammalia.value, "name").Ok? then mammalia.value["name"].s else ""
    }

    /** `MAMMALIA["id"]`. */
    function MammaliaId(): int
      requires MammaliaHasId()
    {
      IdOf(mammalia.value).value
    }
  }
}
