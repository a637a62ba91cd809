/** The data the Specify server stores and the filters the import script
    sends it. A record is a map from field name to a JSON scalar; references
    to other records are resource URIs (session.py:32-34, 146-155). The server
    stamps every record it stores with its `id` and its `resource_uri`. */
module Store {
  import opened Outcomes
  import opened Uri
  datatype Value = Null | Int(i: int) | Str(s: string) | Bool(b: bool)

  type Record = map<string, Value>

  const TaxonTable: string := "taxon"
  const DefItemTable: string := "taxontreedefitem"

  /** Python's `v == True`, which also holds for the integer 1. */
  predicate IsTrue(v: Value) { v == Bool(true) || v == Int(1) }

  /** `record[key]`: a missing key raises KeyError. */
  function Field(r: Record, key: string): Result<Value> {
    if key in r then Ok(r[key]) else Err(MissingField(key))
  }

  /** `record[key]` read as text. */
  function TextField(r: Record, key: string): Result<string> {
    if key in r && r[key].Str? then Ok(r[key].s) else Err(MissingField(key))
  }

  /** The integer `id` of a record. */
  function IdOf(r: Record): Result<int> {
    if "id" in r && r["id"].Int? then Ok(r["id"].i) else Err(MissingField("id"))
  }

  /** `extract_id_from_uri(record[key])`: the id a reference field points at.
      A value that is not text fails like a regex match on a non-string. */
  function LinkedId(r: Record, key: string): Result<int> {
    var v :- Field(r, key);
    if v.Str? then ExtractIdFromUri(v.s) else Err(BadUri)
  }

  /** `current.update(updated)`: what update_resource sends back to the server. */
  function Merge(current: Record, updated: Record): (m: Record)
    ensures m.Keys == current.Keys + updated.Keys
    ensures forall k | k in updated :: m[k] == updated[k]
    ensures forall k | k in current && k !in updated :: m[k] == current[k]
  {
    current + updated
  }

  /** The fields the server sets on every record it stores. */
  function StampOf(table: string, id: int): Record {
    map["id" := Int(id), "resource_uri" := Str(ConstructApiLink(table, id))]
  }

  predicate Stamped(table: string, id: int, r: Record) {
    && "id" in r && r["id"] == Int(id)
    && "resource_uri" in r && r["resource_uri"] == Str(ConstructApiLink(table, id))
  }

  /** A name the server accepts as a table: what `\w+` matches. */
  predicate IsTableName(t: string) { |t| > 0 && IsWord(t) }

  /** The two tables the helpers name are table names. */
  lemma KnownTableNames()
    ensures IsTableName(TaxonTable) && IsTableName(DefItemTable)
  {
    assert IsWord(TaxonTable);
    assert IsWord(DefItemTable);
  }

  /** The taxon table is named in lower case already. */
  lemma TaxonTableIsLower()
    ensures Lower(TaxonTable) == TaxonTable && IsTableName(TaxonTable)
  {
    LowerOfLowercase(TaxonTable);
    KnownTableNames();
  }

  /** The server's records, keyed by (table, id); `nextId` is the id the next
      created record gets. */
  datatype Db = Db(records: map<(string, int), Record>, nextId: nat)

  // ---------------------------------------------------------------------------
  // Queries: the filters of get_defitem and get_taxon (taxon_helpers.py:27-28, 43-47)

  datatype Query =
    | DefItemsNamed(name: string, treeDef: int)
    | TaxaNamed(name: string, defItem: int, parentName: Option<string>)

  function QueryTable(q: Query): string {
    match q
    case DefItemsNamed(_, _) => DefItemTable
    case TaxaNamed(_, _, _) => TaxonTable
  }

  /** `parent__name`: the name of the taxon a record's `parent` points at. */
  function ParentName(db: Db, r: Record): Option<string> {
    match LinkedId(r, "parent")
    case Err(_) => None
    case Ok(p) =>
      if (TaxonTable, p) in db.records && "name" in db.records[(TaxonTable, p)]
         && db.records[(TaxonTable, p)]["name"].Str?
      then Some(db.records[(TaxonTable, p)]["name"].s)
      else None
  }

  predicate Matches(db: Db, q: Query, r: Record) {
    match q
    case DefItemsNamed(name, treeDef) =>
      "name" in r && r["name"] == Str(name) && LinkedId(r, "treedef") == Ok(treeDef)
    case TaxaNamed(name, defItem, parentName) =>
      && "name" in r && r["name"] == Str(name)
      && LinkedId(r, "definitionitem") == Ok(defItem)
      && (parentName.None? || ParentName(db, r) == Some(parentName.value))
  }
}
