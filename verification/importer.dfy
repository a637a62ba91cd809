/** The import script of main.py: the tree information fetched once
    (`MAMMALIA`, `TREE_DEF_ID`, `DEF_ITEMS`), the walk down the four ranks of
    each CSV row, the fetch-or-create of each taxon, the accepted/synonym rule,
    and the record set of the imported species. */
module Importer {
  import opened Outcomes
  import opened Uri
  import opened Store
  import opened Remote
  import opened Sessions
  import opened TaxonHelpers
  import opened Tree
  import opened ImportSpec

  // ---------------------------------------------------------------------------
  // CSV rows

  /** deserialize_csv (main.py:97-106): every line read from the CSV file,
      in order, with each value stripped; the rows it returns are left
      unchanged by a second stripping. */
  method DeserializeCsv(lines: seq<Row>) returns (rows: seq<Row>)
    ensures rows == StrippedRows(lines)
    ensures forall i | 0 <= i < |rows| :: StripRow(rows[i]) == rows[i]
  {
    rows := [];
    var i := 0;
    while i < |lines|
      invariant 0 <= i <= |lines| && rows == StrippedRows(lines)[..i]
    {
      rows := rows + [StripRow(lines[i])];
      i := i + 1;
    }
    forall k | 0 <= k < |rows|
      ensures StripRow(rows[k]) == rows[k]
    {
      StripRowIdempotent(lines[k]);
    }
  }

  // ---------------------------------------------------------------------------
  // The tree information

  /** main.py:73-76: Mammalia is missing; create it as an accepted taxon at
      the Class item, under the first taxon named Chordata at the Phylum item. */
  method CreateMammalia(s: Session, treeDef: int, classItem: Record) returns (r: Result<Record>)
    requires s.Valid() && FirstAnswer(s.db, DefItemsNamed("Class", treeDef)) == Some(classItem)
    requires ServedFrom(DefItemTable, classItem)
    requires FirstAnswer(s.db, TaxaNamed("Mammalia", IdOf(classItem).value, None)).None?
    modifies s`db
    ensures s.Valid() && Evolves(old(s.db), s.db) && Touches(old(s.db), s.db, {})
    ensures r.Ok? ==>
      && MammaliaSettled(old(s.db), s.db, treeDef, r.value) && NamedTaxonIn(s.db, r.value)
      && "name" in r.value && r.value["name"] == Str("Mammalia")
  {
    ghost var db0 := s.db;
    EvolvesRefl(s.db);
    TouchesRefl(s.db);
    var phylumItem :- GetDefItem(s, treeDef, "Phylum");
    var chordata := GetTaxon(s, "Chordata", IdOf(phylumItem).value, None);
    r := CreateAcceptedTaxon(s, classItem, "Mammalia", chordata.value, None);
    if r.Ok? {
      MammaliaCreated(db0, s.db, treeDef, classItem, phylumItem, chordata.value.value, r.value);
    }
  }

  /** The module globals MAMMALIA, TREE_DEF_ID and DEF_ITEMS, which
      fetch_tree_info sets. */
  class TreeInfo {
    var mammalia: Option<Record>
    var treeDefId: Option<int>
    var defItems: map<Rank, Option<Record>>

    /** The globals as the script starts: nothing fetched yet. */
    constructor ()
      ensures mammalia == None && treeDefId == None
      ensures defItems == map[Order := None, Family := None, Genus := None, Species := None]
      ensures !Data().Fetched() && Data().Shaped()
    {
      mammalia := None;
      treeDefId := None;
      defItems := map[Order := None, Family := None, Genus := None, Species := None];
      new;
      forall k: Rank ensures k in defItems {
        match k
        case Order =>
        case Family =>
        case Genus =>
        case Species =>
      }
    }

    /** The globals' current values. */
    function Data(): TreeData
      reads this
    {
      TreeData(mammalia, treeDefId, defItems)
    }

    /** fetch_tree_info: the tree of the discipline, its Class item, the
        taxon Mammalia (created under Chordata when missing), then the items
        of the four ranks. Each global is set as soon as it is computed, so a
        failure part way leaves the earlier ones set. */
    method Fetch(s: Session, discipline: Record) returns (r: Result<()>)
      requires s.Valid() && Data().Valid(s.db)
      modifies this, s`db
      ensures s.Valid() && Data().Valid(s.db) && Evolves(old(s.db), s.db) && Touches(old(s.db), s.db, {})
      ensures LinkedId(discipline, "taxontreedef").Err? ==>
        && r == Err(LinkedId(discipline, "taxontreedef").error) && s.db == old(s.db)
        && mammalia == old(mammalia) && treeDefId == old(treeDefId) && defItems == old(defItems)
      ensures LinkedId(discipline, "taxontreedef").Ok? ==>
        && treeDefId == Some(LinkedId(discipline, "taxontreedef").value)
        && (!s.LoggedIn() ==> r == Err(NotLoggedIn))
      ensures r.Ok? ==> Data().Fetched() && s.LoggedIn()
      ensures r.Ok? ==> forall k: Rank ::
        FirstAnswer(s.db, DefItemsNamed(RankName(k), treeDefId.value)) == Some(defItems[k].value)
      ensures r.Ok? ==> mammalia.value["name"] == Str("Mammalia")
      ensures r.Ok? ==> MammaliaSettled(old(s.db), s.db, treeDefId.value, mammalia.value)
    {
      TouchesRefl(s.db);
      var id :- LinkedId(discipline, "taxontreedef");
      treeDefId := Some(id);
      var _ :- SettleMammalia(s, id);
      r := FetchItems(s, id);
    }

    /** The Mammalia part of fetch_tree_info: look it up at the Class item
        of the tree; when it is missing, create it under Chordata. */
    method SettleMammalia(s: Session, id: int) returns (r: Result<Record>)
      requires s.Valid() && Data().Valid(s.db)
      modifies this`mammalia, s`db
      ensures s.Valid() && Data().Valid(s.db) && Evolves(old(s.db), s.db) && Touches(old(s.db), s.db, {})
      ensures !s.LoggedIn() ==> r == Err(NotLoggedIn) && s.db == old(s.db)
      ensures r.Ok? ==>
        && mammalia == Some(r.value) && "name" in r.value && r.value["name"] == Str("Mammalia")
        && MammaliaSettled(old(s.db), s.db, id, r.value)
    {
      ghost var db0 := s.db;
      TouchesRefl(s.db);
      var classItem :- GetDefItem(s, id, "Class");
      var lookup := GetTaxon(s, "Mammalia", IdOf(classItem).value, None);
      mammalia := lookup.value;
      if lookup.value.None? {
        r := CreateMammalia(s, id, classItem);
        if r.Ok? {
          mammalia := Some(r.value);
        }
      } else {
        MammaliaFound(db0, id, classItem, lookup.value.value);
        r := Ok(lookup.value.value);
      }
    }

    /** The last four lines of fetch_tree_info: DEF_ITEMS, rank by rank. */
    method FetchItems(s: Session, id: int) returns (r: Result<()>)
      requires s.Valid() && Data().Valid(s.db) && treeDefId == Some(id)
      modifies this`defItems
      ensures Data().Valid(s.db)
      ensures !s.LoggedIn() ==> r == Err(NotLoggedIn)
      ensures r.Ok? ==> forall k: Rank ::
        && k in defItems && defItems[k].Some?
        && FirstAnswer(s.db, DefItemsNamed(RankName(k), id)) == Some(defItems[k].value)
    {
      var order :- GetDefItem(s, id, "Order");
      ItemsServedUpdate(defItems, Order, order);
      defItems := defItems[Order := Some(order)];
      var family :- GetDefItem(s, id, "Family");
      ItemsServedUpdate(defItems, Family, family);
      defItems := defItems[Family := Some(family)];
      var genus :- GetDefItem(s, id, "Genus");
      ItemsServedUpdate(defItems, Genus, genus);
      defItems := defItems[Genus := Some(genus)];
      var species :- GetDefItem(s, id, "Species");
      ItemsServedUpdate(defItems, Species, species);
      defItems := defItems[Species := Some(species)];
      ItemsAreAnswers(s.db, id, old(defItems), order, family, genus, species);
      r := Ok(());
    }
  }

  // ---------------------------------------------------------------------------
  // get_accepted

  /** get_accepted (main.py:143-175): `None` (as a JSON null) for an accepted
      row; otherwise the URI of the accepted species, found or created. */
  method GetAccepted(s: Session, ti: TreeData, row: Row) returns (r: Result<Value>)
    requires s.Valid() && ti.Shaped()
    modifies s`db
    ensures s.Valid() && Evolves(old(s.db), s.db)
    ensures !ti.Fetched() ==> r == Err(TreeInfoMissing) && s.db == old(s.db)
    ensures ti.Fetched() ==> Touches(old(s.db), s.db, AcceptedKey(ti, row, old(s.db)))
    ensures ti.Fetched() && row.isAccepted == "Yes" ==> r == Ok(Null) && s.db == old(s.db)
    ensures ti.Fetched() && row.isAccepted != "Yes" ==>
      && (!s.LoggedIn() ==> r == Err(NotLoggedIn))
      && AcceptedResolved(ti, row, old(s.db), s.db, r)
  {
    EvolvesRefl(s.db);
    TouchesRefl(s.db);
    if !ti.Fetched() {
      return Err(TreeInfoMissing);
    }
    if row.isAccepted == "Yes" {
      return Ok(Null);
    }
    r := ResolveAccepted(s, ti, row);
  }

  /** main.py:155-175: a synonym row's accepted species, found or created. */
  method ResolveAccepted(s: Session, ti: TreeData, row: Row) returns (r: Result<Value>)
    requires s.Valid() && Ready(ti)
    modifies s`db
    ensures s.Valid() && Evolves(old(s.db), s.db)
    ensures !s.LoggedIn() ==> r == Err(NotLoggedIn)
    ensures AcceptedResolved(ti, row, old(s.db), s.db, r)
  {
    ghost var db0 := s.db;
    var speciesId := ti.ItemId(Species);
    var accepted := GetTaxon(s, row.acceptedSpecies, speciesId, Some(row.acceptedGenus));
    if accepted.Err? {
      EvolvesRefl(s.db);
      TouchesRefl(s.db);
      return Err(accepted.error);
    }
    if accepted.value.Some? {
      r := ReuseAccepted(s, accepted.value.value, row.acceptedAuthor, AcceptedQuery(ti, row));
      ResolvedByReuse(ti, row, db0, s.db, r);
    } else {
      r := CreateAccepted(s, ti, row);
      ResolvedByCreation(ti, row, db0, s.db, r);
    }
  }

  /** main.py:159-161: the accepted species exists; give it the accepted
      author and answer its URI. */
  method ReuseAccepted(s: Session, accepted: Record, author: string, ghost q: Query) returns (r: Result<Value>)
    requires s.Valid() && q.TaxaNamed? && FirstAnswer(s.db, q) == Some(accepted)
    modifies s`db
    ensures s.Valid() && Evolves(old(s.db), s.db) && s.db.nextId == old(s.db.nextId)
    ensures Touches(old(s.db), s.db, TaxonKey(accepted))
    ensures r.Ok? ==> AcceptedAt(s.db, q, r.value, author)
    ensures r.Ok? ==> "resource_uri" in accepted && r.value == accepted["resource_uri"]
  {
    ghost var db0 := s.db;
    FirstAnswerSpec(db0, q);
    ghost var id := IdOf(accepted).value;
    var updated :- UpdateAuthor(s, accepted, author);
    MatchPreserved(db0, s.db, q, id);
    StoredAcceptedAt(s.db, q, id, updated, author);
    r := Ok(updated["resource_uri"]);
  }

  /** main.py:163-175: the accepted species is missing; create it, with the
      accepted author, under the accepted genus. */
  method CreateAccepted(s: Session, ti: TreeData, row: Row) returns (r: Result<Value>)
    requires s.Valid() && Ready(ti)
    modifies s`db
    ensures s.Valid() && Evolves(old(s.db), s.db)
    ensures Touches(old(s.db), s.db, {}) && s.db.nextId <= old(s.db.nextId) + 2
    ensures !s.LoggedIn() ==> r == Err(NotLoggedIn)
    ensures r.Ok? ==> AcceptedCreated(ti, row, old(s.db), s.db, r.value)
  {
    ghost var db0 := s.db;
    var genus := AcceptedGenus(s, ti, row);
    if genus.Err? {
      return Err(genus.error);
    }
    ghost var db1 := s.db;
    r := CreateAcceptedSpecies(s, ti, row, genus.value);
    EvolvesTrans(db0, db1, s.db);
    TouchesTrans(db0, db1, s.db, {}, {});
    if r.Ok? {
      if FirstAnswer(db0, AcceptedGenusQuery(ti, row)).None? {
        AcceptedGenusKept(db1, s.db, UploadedGenusQuery(ti, row), db0.nextId);
      }
      AcceptedCreatedOf(ti, row, db0, db1, s.db, r.value);
    }
  }

  /** main.py:173-175: create the accepted species, with the accepted author,
      under the accepted genus `genus`, and answer its URI. */
  method CreateAcceptedSpecies(s: Session, ti: TreeData, row: Row, genus: Record) returns (r: Result<Value>)
    requires s.Valid() && Ready(ti)
    requires NamedTaxonIn(s.db, genus) && genus["name"] == Str(row.acceptedGenus)
    modifies s`db
    ensures s.Valid() && Evolves(old(s.db), s.db)
    ensures Touches(old(s.db), s.db, {}) && s.db.nextId <= old(s.db.nextId) + 1
    ensures r.Ok? ==>
      && AcceptedAt(s.db, AcceptedQuery(ti, row), r.value, row.acceptedAuthor)
      && s.db.nextId == old(s.db.nextId) + 1
      && r.value == Str(ConstructApiLink(TaxonTable, old(s.db.nextId)))
      && AcceptedTaxonAt(s.db, old(s.db.nextId))
  {
    ghost var db1 := s.db;
    TouchesRefl(s.db);
    var species :- CreateAcceptedTaxon(s, ti.Item(Species), row.acceptedSpecies, Some(genus), Some(row.acceptedAuthor));
    CreatedAcceptedAt(db1, s.db, species, ti.Item(Species), row.acceptedSpecies, genus, row.acceptedAuthor);
    r := Ok(species["resource_uri"]);
  }

  /** main.py:163-171: the accepted genus, found by name at the genus item, or
      created as an accepted genus under the family 'Uploaded'. */
  method AcceptedGenus(s: Session, ti: TreeData, row: Row) returns (r: Result<Record>)
    requires s.Valid() && Ready(ti)
    modifies s`db
    ensures s.Valid() && Evolves(old(s.db), s.db)
    ensures Touches(old(s.db), s.db, {}) && s.db.nextId <= old(s.db.nextId) + 1
    ensures !s.LoggedIn() ==> r == Err(NotLoggedIn)
    ensures r.Ok? ==> NamedTaxonIn(s.db, r.value) && r.value["name"] == Str(row.acceptedGenus)
    ensures FirstAnswer(old(s.db), AcceptedGenusQuery(ti, row)).Some? ==> s.db == old(s.db)
    ensures FirstAnswer(old(s.db), AcceptedGenusQuery(ti, row)).Some? && s.LoggedIn() ==>
      r == Ok(FirstAnswer(old(s.db), AcceptedGenusQuery(ti, row)).value)
    ensures FirstAnswer(old(s.db), AcceptedGenusQuery(ti, row)).None? && r.Ok? ==>
      && s.db.nextId == old(s.db.nextId) + 1
      && IsMatch(s.db, UploadedGenusQuery(ti, row), old(s.db.nextId))
      && AcceptedTaxonAt(s.db, old(s.db.nextId)) && IdOf(r.value) == Ok(old(s.db.nextId))
  {
    ghost var db0 := s.db;
    EvolvesRefl(s.db);
    TouchesRefl(s.db);
    var genusId := ti.ItemId(Genus);
    var genus :- GetTaxon(s, row.acceptedGenus, genusId, None);
    if genus.Some? {
      FirstAnswerSpec(db0, AcceptedGenusQuery(ti, row));
      return Ok(genus.value);
    }
    r := CreateUploadedGenus(s, ti, row);
  }

  /** main.py:166-171: the accepted genus is missing; create it as an accepted
      genus, without author, under the first taxon named 'Uploaded' at the
      Family item whose parent is named 'Uploaded'. */
  method CreateUploadedGenus(s: Session, ti: TreeData, row: Row) returns (r: Result<Record>)
    requires s.Valid() && Ready(ti)
    modifies s`db
    ensures s.Valid() && Evolves(old(s.db), s.db)
    ensures Touches(old(s.db), s.db, {}) && s.db.nextId <= old(s.db.nextId) + 1
    ensures !s.LoggedIn() ==> r == Err(NotLoggedIn)
    ensures r.Ok? ==>
      && NamedTaxonIn(s.db, r.value) && r.value["name"] == Str(row.acceptedGenus)
      && s.db.nextId == old(s.db.nextId) + 1 && IdOf(r.value) == Ok(old(s.db.nextId))
      && IsMatch(s.db, UploadedGenusQuery(ti, row), old(s.db.nextId))
      && AcceptedTaxonAt(s.db, old(s.db.nextId))
    ensures r.Ok? ==>
      var uploaded := FirstAnswer(old(s.db), TaxaNamed("Uploaded", ti.ItemId(Family), Some("Uploaded")));
      && uploaded.Some? && "resource_uri" in uploaded.value
      && "parent" in r.value && r.value["parent"] == uploaded.value["resource_uri"]
  {
    ghost var db0 := s.db;
    EvolvesRefl(s.db);
    TouchesRefl(s.db);
    var familyId := ti.ItemId(Family);
    var uploaded := GetTaxon(s, "Uploaded", familyId, Some("Uploaded"));
    if uploaded.Err? {
      return Err(uploaded.error);
    }
    assert s.LoggedIn();
    r := CreateAcceptedTaxon(s, ti.Item(Genus), row.acceptedGenus, uploaded.value, None);
    if r.Ok? {
      UploadedGenus(db0, s.db, r.value, ti.Item(Genus), row.acceptedGenus, familyId, uploaded.value.value);
    }
  }

  // ---------------------------------------------------------------------------
  // synonymize_taxon

  /** synonymize_taxon (main.py:221-229): mark `taxon` not accepted, with the
      row's accepted taxon as its accepted taxon. Only that taxon and the
      accepted species get_accepted finds are rewritten. */
  method SynonymizeTaxon(s: Session, ti: TreeData, row: Row, taxon: Record) returns (r: Result<Record>)
    requires s.Valid() && ti.Shaped()
    modifies s`db
    ensures s.Valid() && Evolves(old(s.db), s.db)
    ensures !ti.Fetched() ==> r == Err(TreeInfoMissing) && s.db == old(s.db)
    ensures ti.Fetched() ==> Touches(old(s.db), s.db, AcceptedKey(ti, row, old(s.db)) + TaxonKey(taxon))
    ensures ti.Fetched() && row.isAccepted == "Yes" ==> s.db.nextId == old(s.db.nextId)
    ensures r.Ok? ==> ti.Fetched() && Synonymized(ti, row, s.db, taxon, r.value)
    ensures r.Ok? && row.isAccepted != "Yes" ==> AcceptedLinked(ti, row, old(s.db), s.db, r.value["acceptedtaxon"])
  {
    EvolvesRefl(s.db);
    if !ti.Fetched() {
      return Err(TreeInfoMissing);
    }
    ghost var db0 := s.db;
    ghost var keys := AcceptedKey(ti, row, db0);
    var accepted := GetAccepted(s, ti, row);
    ghost var db1 := s.db;
    TouchesWiden(db0, db1, keys, keys + TaxonKey(taxon));
    if accepted.Err? {
      return Err(accepted.error);
    }
    var id :- IdOf(taxon);
    TaxonTableIsLower();
    r := s.UpdateResource(TaxonTable, id, SynonymFields(accepted.value), StatusOk, StatusOk);
    if r.Ok? {
      SynonymUpdated(db1, id, accepted.value);
      EvolvesTrans(db0, db1, s.db);
      TouchesSet(db1, (TaxonTable, id), r.value);
      TouchesTrans(db0, db1, s.db, keys, {(TaxonTable, id)});
      assert TaxonKey(taxon) == {(TaxonTable, id)};
      SynonymStored(ti, row, db1, taxon, accepted.value);
      if row.isAccepted != "Yes" {
        AcceptedLinkedEvolves(ti, row, db0, db1, s.db, accepted.value);
      }
    }
  }

  // ---------------------------------------------------------------------------
  // get_or_create_taxon

  /** main.py:206: the `acceptedtaxon` a new taxon is created with, the
      answer of get_accepted at Species and None above. */
  method AcceptedField(s: Session, ti: TreeData, row: Row, rank: Rank) returns (r: Result<Value>)
    requires s.Valid() && Ready(ti)
    modifies s`db
    ensures s.Valid() && Evolves(old(s.db), s.db)
    ensures Touches(old(s.db), s.db, SpeciesKeys(ti, row, rank, old(s.db)))
    ensures rank != Species || row.isAccepted == "Yes" ==> r == Ok(Null) && s.db == old(s.db)
    ensures rank == Species && row.isAccepted != "Yes" ==> AcceptedResolved(ti, row, old(s.db), s.db, r)
  {
    TouchesRefl(s.db);
    if rank == Species {
      r := GetAccepted(s, ti, row);
    } else {
      EvolvesRefl(s.db);
      r := Ok(Null);
    }
  }

  /** main.py:202-218: no taxon matches; create one for `row` at `rank` under
      `parent`, after resolving the accepted taxon of a Species. */
  method CreateTaxon(s: Session, ti: TreeData, row: Row, rank: Rank, parent: Record) returns (r: Result<Record>)
    requires s.Valid() && Ready(ti)
    modifies s`db
    ensures s.Valid() && Evolves(old(s.db), s.db)
    ensures Touches(old(s.db), s.db, SpeciesKeys(ti, row, rank, old(s.db)))
    ensures r.Ok? ==> TaxonCreated(ti, row, rank, parent, old(s.db), s.db, r.value)
  {
    ghost var db0 := s.db;
    var accepted :- AcceptedField(s, ti, row, rank);
    r := SendTaxon(s, ti, row, rank, parent, accepted, db0);
  }

  /** main.py:208-216: send the new taxon, with `accepted` as its accepted
      taxon, to the store reached from `before` by get_accepted. */
  method SendTaxon(s: Session, ti: TreeData, row: Row, rank: Rank, parent: Record, accepted: Value, ghost before: Db)
    returns (r: Result<Record>)
    requires s.Valid() && Ready(ti) && Evolves(before, s.db)
    requires Touches(before, s.db, SpeciesKeys(ti, row, rank, before))
    requires rank != Species || row.isAccepted == "Yes" ==> s.db == before && accepted == Null
    requires rank == Species && row.isAccepted != "Yes" ==>
      && AcceptedAt(s.db, AcceptedQuery(ti, row), accepted, row.acceptedAuthor)
      && AddedForAccepted(ti, row, s.db, before.nextId, s.db.nextId)
    modifies s`db
    ensures s.Valid() && Evolves(before, s.db) && Touches(before, s.db, SpeciesKeys(ti, row, rank, before))
    ensures r.Ok? ==> TaxonCreated(ti, row, rank, parent, before, s.db, r.value)
  {
    ghost var db1 := s.db;
    var data :- NewTaxonRecord(ti, row, rank, parent, accepted);
    assert data == TaxonDataFor(ti, row, rank, parent, accepted);
    TaxonTableIsLower();
    r := s.CreateResource(TaxonTable, data, StatusCreated);
    if r.Ok? {
      TaxonStored(ti, row, rank, parent, before, db1, accepted, s.db, r.value);
    }
  }

  // ---------------------------------------------------------------------------
  // get_or_create_taxon, an existing Species

  /** main.py:195-200 at Species: synonymize the existing taxon when it
      flips, then give it the row's author. */
  method ReconcileSpecies(s: Session, ti: TreeData, row: Row, taxon: Record) returns (r: Result<Record>)
    requires s.Valid() && Ready(ti)
    requires IdOf(taxon).Ok? && (TaxonTable, IdOf(taxon).value) in s.db.records
    requires s.db.records[(TaxonTable, IdOf(taxon).value)] == taxon
    modifies s`db
    ensures s.Valid() && Evolves(old(s.db), s.db)
    ensures Touches(old(s.db), s.db, AcceptedKey(ti, row, old(s.db)) + TaxonKey(taxon))
    ensures "isaccepted" !in taxon ==> r == Err(MissingField("isaccepted")) && s.db == old(s.db)
    ensures r.Ok? ==> SpeciesReconciled(ti, row, old(s.db), s.db, taxon, r.value)
  {
    EvolvesRefl(s.db);
    TouchesRefl(s.db);
    ghost var keys := AcceptedKey(ti, row, s.db) + TaxonKey(taxon);
    TouchesWiden(s.db, s.db, {}, keys);
    var accepted :- Field(taxon, "isaccepted");
    if IsTrue(accepted) && row.isAccepted != "Yes" {
      r := SynonymizeSpecies(s, ti, row, taxon);
    } else {
      ghost var db0 := s.db;
      r := UpdateAuthor(s, taxon, row.author);
      TouchesWiden(db0, s.db, TaxonKey(taxon), keys);
      if r.Ok? && taxon["author"] == Str(row.author) {
        SameAuthor(taxon, row.author);
        assert db0.records[(TaxonTable, IdOf(taxon).value) := taxon] == db0.records;
      }
    }
  }

  /** main.py:198-200 for a Species that flips: synonymize it, then give the
      synonym the row's author. */
  method SynonymizeSpecies(s: Session, ti: TreeData, row: Row, taxon: Record) returns (r: Result<Record>)
    requires s.Valid() && Ready(ti) && Flips(row, taxon)
    requires IdOf(taxon).Ok? && (TaxonTable, IdOf(taxon).value) in s.db.records
    modifies s`db
    ensures s.Valid() && Evolves(old(s.db), s.db)
    ensures Touches(old(s.db), s.db, AcceptedKey(ti, row, old(s.db)) + TaxonKey(taxon))
    ensures r.Ok? ==> SpeciesReconciled(ti, row, old(s.db), s.db, taxon, r.value)
  {
    ghost var db0 := s.db;
    ghost var keys := AcceptedKey(ti, row, db0) + TaxonKey(taxon);
    var synonym := SynonymizeTaxon(s, ti, row, taxon);
    if synonym.Err? {
      return Err(synonym.error);
    }
    ghost var db1 := s.db;
    r := UpdateAuthor(s, synonym.value, row.author);
    EvolvesTrans(db0, db1, s.db);
    assert TaxonKey(synonym.value) == TaxonKey(taxon);
    TouchesTrans(db0, db1, s.db, keys, TaxonKey(taxon));
    assert keys + TaxonKey(taxon) == keys;
    if r.Ok? {
      if synonym.value["author"] == Str(row.author) {
        SameAuthor(synonym.value, row.author);
      }
      SynonymAuthored(ti, row, db0, db1, s.db, taxon, synonym.value, r.value);
    }
  }

  // ---------------------------------------------------------------------------
  // get_or_create_taxon

  /** get_or_create_taxon (main.py:178-218): the taxon named as `row` says at
      `rank`, under a parent named as `parent`, found and reconciled, or
      created. */
  method GetOrCreateTaxon(s: Session, ti: TreeData, row: Row, rank: Rank, parent: Record) returns (r: Result<Record>)
    requires s.Valid() && ti.Shaped()
    modifies s`db
    ensures s.Valid() && Evolves(old(s.db), s.db)
    ensures !ti.Fetched() ==> r == Err(TreeInfoMissing) && s.db == old(s.db)
    ensures ti.Fetched() && TextField(parent, "name").Err? ==> r == Err(MissingField("name")) && s.db == old(s.db)
    ensures ti.Fetched() && TextField(parent, "name").Ok? && !s.LoggedIn() ==> r == Err(NotLoggedIn)
    ensures ti.Fetched() && TextField(parent, "name").Ok? ==>
      Touches(old(s.db), s.db, SettleKeys(ti, row, rank, parent["name"].s, old(s.db)))
    ensures r.Ok? ==>
      && ti.Fetched() && TextField(parent, "name").Ok?
      && TaxonSettled(ti, row, rank, parent, old(s.db), s.db, r.value)
      && (NamedTaxonIn(old(s.db), parent) ==> Answered(ti, row, rank, parent["name"].s, s.db, r.value))
  {
    EvolvesRefl(s.db);
    if !ti.Fetched() {
      return Err(TreeInfoMissing);
    }
    var parentName :- TextField(parent, "name");
    ghost var db0 := s.db;
    ghost var keys := SettleKeys(ti, row, rank, parentName, db0);
    TouchesRefl(s.db);
    TouchesWiden(s.db, s.db, {}, keys);
    var found := GetTaxon(s, RowField(row, rank), ti.ItemId(rank), Some(parentName));
    if found.Err? {
      return Err(found.error);
    }
    if found.value.Some? {
      r := SettleFound(s, ti, row, rank, parentName, found.value.value);
    } else {
      r := CreateTaxon(s, ti, row, rank, parent);
      TouchesWiden(db0, s.db, SpeciesKeys(ti, row, rank, db0), keys);
      if r.Ok? && NamedTaxonIn(db0, parent) {
        CreatedAnswered(ti, row, rank, parent, db0, s.db, r.value);
      }
    }
  }

  /** main.py:195-200: the lookup found `taxon`; a Species is reconciled with
      the row, a taxon above Species is answered as it is. */
  method SettleFound(s: Session, ti: TreeData, row: Row, rank: Rank, parentName: string, taxon: Record)
    returns (r: Result<Record>)
    requires s.Valid() && Ready(ti)
    requires FirstAnswer(s.db, RankQuery(ti, row, rank, parentName)) == Some(taxon)
    modifies s`db
    ensures s.Valid() && Evolves(old(s.db), s.db)
    ensures rank != Species ==> r == Ok(taxon) && s.db == old(s.db)
    ensures rank == Species && r.Ok? ==> SpeciesReconciled(ti, row, old(s.db), s.db, taxon, r.value)
    ensures r.Ok? ==> Answered(ti, row, rank, parentName, s.db, r.value)
    ensures Touches(old(s.db), s.db, SettleKeys(ti, row, rank, parentName, old(s.db)))
  {
    TouchesRefl(s.db);
    ghost var db0 := s.db;
    FirstAnswerSpec(s.db, RankQuery(ti, row, rank, parentName));
    if rank == Species {
      r := ReconcileSpecies(s, ti, row, taxon);
    } else {
      EvolvesRefl(s.db);
      r := Ok(taxon);
    }
    if r.Ok? {
      FoundAnswered(ti, row, rank, parentName, db0, s.db, IdOf(taxon).value, r.value);
    }
  }

  // What a row may change, and which taxon each rank used

  /** proccess_row (main.py:124-140): get or create the row's taxon at each
      rank, each under the one before, starting under Mammalia; answer the
      id of the Species. `ids` are the taxa of the four ranks and `looked`
      the stores their lookups ran on. */
  method ProcessRow(s: Session, ti: TreeData, row: Row) returns (r: Result<int>, ghost ids: seq<int>, ghost looked: seq<Db>)
    requires s.Valid() && ti.Valid(s.db)
    modifies s`db
    ensures s.Valid() && ti.Valid(s.db) && Evolves(old(s.db), s.db)
    ensures !ti.Fetched() ==> r == Err(TreeInfoMissing) && s.db == old(s.db)
    ensures ti.Fetched() && !s.LoggedIn() ==> r == Err(NotLoggedIn)
    ensures ti.Fetched() ==> RowKeeps(LookupsOf(ti, row), old(s.db), s.db)
    ensures r.Ok? ==> RowPlaced(ti, row, s.db, ids) && |ids| == |Ranks| && r.value == ids[|Ranks| - 1]
    ensures r.Ok? ==> ti.MammaliaHasId() && RowSoFar(LookupsOf(ti, row), old(s.db), looked, ids, ti.MammaliaId(), s.db)
  {
    EvolvesRefl(s.db);
    ids, looked := [], [];
    if !ti.Fetched() {
      return Err(TreeInfoMissing), ids, looked;
    }
    ghost var db0 := s.db;
    ghost var l := LookupsOf(ti, row);
    ghost var qs := l.ranks;
    var parent := ti.mammalia.value;
    ghost var first := parent["id"].i;
    var i := 0;
    while i < |Ranks|
      invariant 0 <= i <= |Ranks| && |ids| == i
      invariant s.Valid() && Evolves(db0, s.db) && NamedTaxonIn(s.db, parent)
      invariant !s.LoggedIn() ==> i == 0
      invariant i == 0 ==> s.db == db0 && parent["id"].i == first
      invariant i < |Ranks| ==> TextField(parent, "name").Ok? && qs[i] == RankQuery(ti, row, Ranks[i], parent["name"].s)
      invariant i > 0 ==> parent["id"].i == ids[i - 1]
      invariant RowSoFar(l, db0, looked, ids, first, s.db)
    {
      ghost var db1 := s.db;
      var taxon := PlaceRank(s, ti, row, i, parent);
      EvolvesTrans(db0, db1, s.db);
      if taxon.Err? {
        RowKeepsTrans(l, db0, db1, s.db);
        ti.ValidEvolves(db0, s.db);
        return Err(taxon.error), ids, looked;
      }
      RowSoFarNext(l, db0, looked, ids, first, db1, s.db, taxon.value["id"].i);
      ids := ids + [taxon.value["id"].i];
      looked := looked + [db1];
      parent := taxon.value;
      i := i + 1;
    }
    PlacedByWhole(s.db, qs, ids, |Ranks|);
    ti.ValidEvolves(db0, s.db);
    r := Ok(parent["id"].i);
  }

  /** The body of the loop of proccess_row at `Ranks[i]`: the taxon of `row`
      there, under `parent`, settled as `RankSettled` says; only records
      the row may touch are rewritten. */
  method PlaceRank(s: Session, ti: TreeData, row: Row, i: nat, parent: Record) returns (r: Result<Record>)
    requires s.Valid() && Ready(ti) && i < |Ranks|
    requires NamedTaxonIn(s.db, parent) && TextField(parent, "name").Ok?
    requires RowQueries(ti, row)[i] == RankQuery(ti, row, Ranks[i], parent["name"].s)
    modifies s`db
    ensures s.Valid() && Evolves(old(s.db), s.db) && RowKeeps(LookupsOf(ti, row), old(s.db), s.db)
    ensures !s.LoggedIn() ==> r == Err(NotLoggedIn)
    ensures r.Ok? ==>
      && NamedTaxonIn(s.db, r.value)
      && RankStep(LookupsOf(ti, row), i, old(s.db), s.db, r.value["id"].i, parent["id"].i)
      && (i + 1 < |Ranks| ==>
            TextField(r.value, "name").Ok? && RowQueries(ti, row)[i + 1] == RankQuery(ti, row, Ranks[i + 1], r.value["name"].s))
  {
    ghost var db0 := s.db;
    r := GetOrCreateTaxon(s, ti, row, Ranks[i], parent);
    SettleKeysMayTouch(ti, row, i, parent["name"].s, db0, s.db);
    if r.Ok? {
      SettledRank(ti, row, Ranks[i], parent, db0, s.db, r.value);
      RankAdded(ti, row, i, parent["name"].s, s.db, db0.nextId, s.db.nextId);
      if i + 1 < |Ranks| {
        AnsweredName(ti, row, Ranks[i], parent["name"].s, s.db, r.value);
        NextQuery(ti, row, i, r.value);
      }
    }
  }

  /** The list comprehension of main.py:43: every row of the file in turn;
      the first failure stops the import. `chains` are the placed taxa of
      each row; only records some row may touch are rewritten. */
  method ProcessRows(s: Session, ti: TreeData, rows: seq<Row>)
    returns (r: Result<seq<int>>, ghost chains: seq<seq<int>>, ghost looks: seq<seq<Db>>)
    requires s.Valid() && ti.Valid(s.db)
    modifies s`db
    ensures s.Valid() && ti.Valid(s.db) && Evolves(old(s.db), s.db)
    ensures !ti.Fetched() ==> s.db == old(s.db)
    ensures |rows| > 0 && !ti.Fetched() ==> r == Err(TreeInfoMissing)
    ensures |rows| > 0 && ti.Fetched() && !s.LoggedIn() ==> r == Err(NotLoggedIn)
    ensures ti.Fetched() ==> RowsKeep(RowsLookupsOf(ti, rows), old(s.db), s.db)
    ensures r.Ok? ==> |r.value| == |rows| && SpeciesIds(r.value, chains)
    ensures r.Ok? && ti.Fetched() ==>
      && RowsAdded(RowsLookupsOf(ti, rows), s.db, old(s.db.nextId), s.db.nextId)
      && ti.MammaliaHasId() && RowsSettled(RowsLookupsOf(ti, rows), looks, chains, ti.MammaliaId(), s.db)
    ensures r.Ok? && |rows| > 0 ==>
      Ready(ti) && RowsPlaced(s.db, ti.defItems, ti.MammaliaName(), rows, chains)
  {
    EvolvesRefl(s.db);
    ghost var db0 := s.db;
    ghost var items := ti.defItems;
    ghost var name := if Ready(ti) then ti.MammaliaName() else "";
    ghost var first := if ti.MammaliaHasId() then ti.MammaliaId() else 0;
    ghost var ls := if Ready(ti) then RowsLookupsOf(ti, rows) else [];
    var ids: seq<int> := [];
    chains, looks := [], [];
    var j := 0;
    while j < |rows|
      invariant 0 <= j <= |rows| && |chains| == j && SpeciesIds(ids, chains)
      invariant s.Valid() && ti.Valid(s.db) && Evolves(db0, s.db)
      invariant !ti.Fetched() || !s.LoggedIn() ==> j == 0
      invariant !ti.Fetched() ==> s.db == db0
      invariant ti.defItems == items && (ti.Fetched() ==> name == ti.MammaliaName())
      invariant ti.Fetched() ==> ti.MammaliaHasId() && first == ti.MammaliaId()
      invariant ti.Fetched() ==> RowsPlaced(s.db, items, name, rows, chains)
      invariant ti.Fetched() ==> ls == RowsLookupsOf(ti, rows)
      invariant ti.Fetched() ==> RowsKeep(ls, db0, s.db) && RowsAdded(ls, s.db, db0.nextId, s.db.nextId)
      invariant ti.Fetched() ==> RowsSettled(ls, looks, chains, first, s.db)
    {
      ghost var db1 := s.db;
      var id, chain, look := ProcessRow(s, ti, rows[j]);
      EvolvesTrans(db0, db1, s.db);
      if ti.Fetched() {
        RowsKeepNext(ls, j, db0, db1, s.db);
      }
      if id.Err? {
        return Err(id.error), chains, looks;
      }
      RowsAddedNext(ls, j, db1, s.db, db0.nextId, db1.nextId, s.db.nextId);
      RowsSettledNext(ls, looks, chains, first, db1, s.db, look, chain);
      RowsPlacedEvolves(db1, s.db, items, name, rows, chains);
      RowsPlacedNext(s.db, items, name, rows, chains, chain);
      SpeciesIdsNext(ids, chains, id.value, chain);
      ids := ids + [id.value];
      chains := chains + [chain];
      looks := looks + [look];
      j := j + 1;
    }
    r := Ok(ids);
  }

  // ---------------------------------------------------------------------------
  // The record set of main

  /** main.py:56-61: one record set item per id of `ids`, in order, each in
      the record set at `recordSet`; every record stored before stays as it
      was. */
  method SaveRecordSetItems(s: Session, ids: seq<int>, recordSet: Value)
    requires s.Valid() && s.LoggedIn()
    modifies s`db
    ensures s.Valid() && Evolves(old(s.db), s.db) && Touches(old(s.db), s.db, {})
    ensures s.db.nextId == old(s.db.nextId) + |ids|
    ensures ItemsSaved(s.db, old(s.db.nextId), ids, |ids|, recordSet)
  {
    RecordSetTables();
    EvolvesRefl(s.db);
    TouchesRefl(s.db);
    var n := 0;
    while n < |ids|
      invariant 0 <= n <= |ids| && s.Valid() && s.LoggedIn()
      invariant Evolves(old(s.db), s.db) && Touches(old(s.db), s.db, {})
      invariant s.db.nextId == old(s.db.nextId) + n
      invariant ItemsSaved(s.db, old(s.db.nextId), ids, n, recordSet)
    {
      ghost var before := s.db;
      var item := s.CreateResource(RecordSetItemTable, RecordSetItemData(ids[n], recordSet), StatusCreated);
      ItemSavedNext(before, s.db, old(s.db.nextId), ids, n, recordSet, item.value);
      AddEvolves(before, (RecordSetItemTable, before.nextId), item.value);
      EvolvesTrans(old(s.db), before, s.db);
      TouchesAdd(before, (RecordSetItemTable, before.nextId), item.value);
      TouchesTrans(old(s.db), before, s.db, {}, {});
      n := n + 1;
    }
  }

  /** main.py:45-61: create the record set of the imported species, owned by
      the logged-in user, in the session's collection, then one item per id. */
  method SaveRecordSet(s: Session, ids: seq<int>) returns (r: Result<Record>)
    requires s.Valid()
    modifies s`db
    ensures s.Valid() && Evolves(old(s.db), s.db) && Touches(old(s.db), s.db, {})
    ensures !s.LoggedIn() ==> r == Err(NotLoggedIn) && s.db == old(s.db)
    ensures s.LoggedIn() && "resource_uri" !in s.specifyUser.value ==>
      r == Err(MissingField("resource_uri")) && s.db == old(s.db)
    ensures s.LoggedIn() && "resource_uri" in s.specifyUser.value ==>
      && r.Ok?
      && RecordSetSaved(old(s.db), s.db, s.hierarchy["Collection"], s.specifyUser.value["resource_uri"], ids, r.value)
  {
    EvolvesRefl(s.db);
    TouchesRefl(s.db);
    if !s.LoggedIn() {
      return Err(NotLoggedIn);
    }
    var user :- Field(s.specifyUser.value, "resource_uri");
    var collection := s.GetDomainId("Collection").value;
    ghost var db0 := s.db;
    RecordSetTables();
    var rs := s.CreateResource(RecordSetTable, RecordSetData(collection, user), StatusCreated);
    AddEvolves(db0, (RecordSetTable, db0.nextId), rs.value);
    TouchesAdd(db0, (RecordSetTable, db0.nextId), rs.value);
    ghost var db1 := s.db;
    SaveRecordSetItems(s, ids, rs.value["resource_uri"]);
    EvolvesTrans(db0, db1, s.db);
    TouchesTrans(db0, db1, s.db, {}, {});
    RecordSetKept(db0, db1, s.db, collection, user, ids, rs.value);
    r := Ok(rs.value);
  }

  // ---------------------------------------------------------------------------
  // main

  /** The rows main imports and the record set it saves, from `before` to
      `db` by way of `mid`: every row placed in `db` by the lookups of
      proccess_row, the taxa of each row settled at the time of its lookups
      (`looks`), only records some row may touch rewritten and only ids some
      row may hand out handed out up to `mid`; `ids` the Species ids of the
      rows, in order; then, from `mid` on, only the record set `rs` with one
      item per id added. */
  ghost predicate Imported(ti: TreeData, before: Db, mid: Db, db: Db, rows: seq<Row>, ids: seq<int>,
                           chains: seq<seq<int>>, looks: seq<seq<Db>>, collection: int, user: Value, rs: Record)
  {
    && Ready(ti)
    && |ids| == |rows| && SpeciesIds(ids, chains)
    && RowsPlaced(db, ti.defItems, ti.MammaliaName(), rows, chains)
    && ti.MammaliaHasId() && RowsSettled(RowsLookupsOf(ti, rows), looks, chains, ti.MammaliaId(), db)
    && RowsKeep(RowsLookupsOf(ti, rows), before, mid)
    && RowsAdded(RowsLookupsOf(ti, rows), mid, before.nextId, mid.nextId)
    && Evolves(mid, db) && Touches(mid, db, {})
    && RecordSetSaved(mid, db, collection, user, ids, rs)
  }

  /** The tree information is fetched, and Mammalia is a taxon stored in `db`. */
  ghost predicate TreeReady(db: Db, tree: TreeData) {
    tree.Fetched() && tree.Valid(db)
  }

  /** main.py:41-61, once the tree information is fetched: read the CSV
      lines, place every row, then save the record set of the Species ids. */
  method ImportRows(s: Session, ti: TreeData, lines: seq<Row>)
    returns (r: Result<Record>, ids: seq<int>, ghost chains: seq<seq<int>>, ghost looks: seq<seq<Db>>, ghost mid: Db)
    requires s.Valid() && TreeReady(s.db, ti) && s.LoggedIn()
    modifies s`db
    ensures s.Valid() && Evolves(old(s.db), mid) && Evolves(old(s.db), s.db)
    ensures RowsKeep(RowsLookupsOf(ti, StrippedRows(lines)), old(s.db), s.db)
    ensures r.Ok? ==> "resource_uri" in s.specifyUser.value
    ensures r.Ok? ==> Imported(ti, old(s.db), mid, s.db, StrippedRows(lines), ids, chains, looks,
                               s.hierarchy["Collection"], s.specifyUser.value["resource_uri"], r.value)
  {
    ghost var db0 := s.db;
    var rows := DeserializeCsv(lines);
    var placed;
    placed, chains, looks := ProcessRows(s, ti, rows);
    if placed.Err? {
      EvolvesRefl(s.db);
      return Err(placed.error), [], chains, looks, s.db;
    }
    ids := placed.value;
    assert ItemsReady(ti.defItems) by {
      forall k: Rank ensures k in ti.defItems && ti.defItems[k].Some? && IdOf(ti.defItems[k].value).Ok? {
        var _ := ti.ItemId(k);
      }
    }
    mid := s.db;
    r := SaveRecordSet(s, ids);
    EvolvesTrans(db0, mid, s.db);
    ti.ValidEvolves(mid, s.db);
    RowsKeepAdded(RowsLookupsOf(ti, rows), db0, mid, s.db);
    if r.Ok? {
      RowsPlacedEvolves(mid, s.db, ti.defItems, ti.MammaliaName(), rows, chains);
      RowsSettledEvolves(RowsLookupsOf(ti, rows), looks, chains, ti.MammaliaId(), mid, s.db);
    }
  }

  /** What connecting leaves, whether or not it succeeds: the store `db` is
      `server` with records only added and none rewritten, and the tree
      information `tree` holds a Mammalia stored in `db`, if any. */
  ghost predicate ConnectedTo(server: Db, db: Db, tree: TreeData) {
    Evolves(server, db) && Touches(server, db, {}) && tree.Valid(db)
  }

  /** The tree information is fetched, with Mammalia settled from `server`
      to `db`. */
  ghost predicate TreeFetched(server: Db, db: Db, tree: TreeData) {
    tree.Fetched() && MammaliaSettled(server, db, tree.treeDefId.value, tree.mammalia.value)
  }

  /** main.py:30-39: open a session on `server`, log in to KUFishvoucher
      as `user` (the server answering the login with `loginStatus`), then
      fetch the discipline and the tree information. */
  method Connect(available: map<string, int>, server: Db, loginStatus: int, user: Record)
    returns (r: Result<()>, s: Session, ti: TreeInfo, ghost tree: TreeData)
    requires ValidDb(server)
    ensures fresh(s) && fresh(ti) && tree == ti.Data()
    ensures s.Valid() && ConnectedTo(server, s.db, tree)
    ensures loginStatus == 403 ==> r == Err(InvalidCredentials) && s.db == server
    ensures loginStatus == 400 ==> r == Err(BadRequest) && s.db == server
    ensures r.Ok? ==>
      && s.specifyUser == Some(user) && s.hierarchy["Collection"] == CollectionToUse(available)
      && TreeFetched(server, s.db, tree)
  {
    s := new Session(available, server);
    ti := new TreeInfo();
    EvolvesRefl(server);
    TouchesRefl(server);
    var collection := s.GetCollectionId("KUFishvoucher");
    var collectionId := if collection.Some? then collection.value else -1;
    var login := s.Login(loginStatus, user, collectionId);
    if login.Fail? {
      return Err(login.error), s, ti, ti.Data();
    }
    var discipline := s.FetchResource("discipline", s.GetDomainId("Discipline").value, StatusOk);
    if discipline.Err? {
      return Err(discipline.error), s, ti, ti.Data();
    }
    r := ti.Fetch(s, discipline.value);
    tree := ti.Data();
  }

  /** main.py:28-61: connect, read and place the CSV lines, then save the
      record set of their Species. `ready` is the store once connected:
      `server` with at most Mammalia added. */
  method RunImport(available: map<string, int>, server: Db, loginStatus: int, user: Record, lines: seq<Row>)
    returns (r: Result<Record>, s: Session, ti: TreeInfo, ids: seq<int>, ghost tree: TreeData,
             ghost chains: seq<seq<int>>, ghost looks: seq<seq<Db>>, ghost ready: Db, ghost mid: Db)
    requires ValidDb(server)
    ensures s.Valid() && Evolves(server, s.db) && tree == ti.Data() && ConnectedTo(server, ready, tree)
    ensures loginStatus == 403 ==> r == Err(InvalidCredentials) && s.db == server
    ensures loginStatus == 400 ==> r == Err(BadRequest) && s.db == server
    ensures r.Ok? ==>
      && s.specifyUser == Some(user) && "resource_uri" in user
      && s.hierarchy["Collection"] == CollectionToUse(available)
      && TreeFetched(server, ready, tree)
      && Imported(tree, ready, mid, s.db, StrippedRows(lines), ids, chains, looks,
                  s.hierarchy["Collection"], s.specifyUser.value["resource_uri"], r.value)
  {
    var connected;
    connected, s, ti, tree := Connect(available, server, loginStatus, user);
    ids, chains, looks, ready, mid := [], [], [], s.db, s.db;
    if connected.Err? {
      return Err(connected.error), s, ti, ids, tree, chains, looks, ready, mid;
    }
    ghost var collection := s.hierarchy["Collection"];
    r, ids, chains, looks, mid := ImportRows(s, ti.Data(), lines);
    EvolvesTrans(server, ready, s.db);
    if r.Ok? {
      assert s.specifyUser == Some(user) && s.hierarchy["Collection"] == collection;
    }
  }
}
