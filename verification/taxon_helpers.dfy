/** Taxon lookups and updates of taxon_helpers.py: the four rank names, the
    first-match lookups `get_defitem` and `get_taxon` (their query strings are
    modelled as `Query` filters), `update_author`, and the creation of an
    accepted taxon. */
module TaxonHelpers {
  import opened Outcomes
  import opened Uri
  import opened Store
  import opened Remote
  import opened Sessions

  /** Table number of Taxon, recorded on the record set the import creates. */
  const TaxonTableId := 4

  datatype Rank = Order | Family | Genus | Species

  /** RANK_NAME: the text of each rank, as the CSV columns and the tree
      definition items name it. */
  function RankName(r: Rank): string {
    match r
    case Order => "Order"
    case Family => "Family"
    case Genus => "Genus"
    case Species => "Species"
  }

  const RankNames: set<string> := {"Order", "Family", "Genus", "Species"}

  /** The rank names are exactly the four values, one per rank. */
  lemma RankNamesExact()
    ensures forall r: Rank :: RankName(r) in RankNames
    ensures forall n | n in RankNames :: exists r: Rank :: RankName(r) == n
    ensures forall r1: Rank, r2: Rank :: RankName(r1) == RankName(r2) ==> r1 == r2
  {
    assert RankName(Order) == "Order" && RankName(Family) == "Family";
    assert RankName(Genus) == "Genus" && RankName(Species) == "Species";
  }

  /** get_defitem: the first tree definition item of tree `treeDefId` named
      `rankName`; none at all raises. */
  method GetDefItem(s: Session, treeDefId: int, rankName: string) returns (r: Result<Record>)
    requires s.Valid()
    ensures !s.LoggedIn() ==> r == Err(NotLoggedIn)
    ensures s.LoggedIn() ==>
      var found := FirstAnswer(s.db, DefItemsNamed(rankName, treeDefId));
      r == if found.None? then Err(NoDefItem(rankName)) else Ok(found.value)
    ensures r.Ok? ==> ServedFrom(DefItemTable, r.value)
  {
    var q := DefItemsNamed(rankName, treeDefId);
    var ranks :- s.FetchCollection(q, StatusOk);
    FirstAnswerSpec(s.db, q);
    if |ranks| == 0 {
      return Err(NoDefItem(rankName));
    }
    r := Ok(ranks[0]);
  }

  /** get_taxon: the first taxon named `name` at definition item `defItemId`,
      and, when `parentName` is given, whose parent is named `parentName`;
      `None` when there is none. */
  method GetTaxon(s: Session, name: string, defItemId: int, parentName: Option<string>)
    returns (r: Result<Option<Record>>)
    requires s.Valid()
    ensures !s.LoggedIn() ==> r == Err(NotLoggedIn)
    ensures s.LoggedIn() ==> r == Ok(FirstAnswer(s.db, TaxaNamed(name, defItemId, parentName)))
    ensures r.Ok? && r.value.Some? ==> NamedTaxonIn(s.db, r.value.value)
  {
    var q := TaxaNamed(name, defItemId, parentName);
    var taxa :- s.FetchCollection(q, StatusOk);
    FirstAnswerSpec(s.db, q);
    if |taxa| == 0 {
      return Ok(None);
    }
    r := Ok(Some(taxa[0]));
  }

  /** Sending only a new author for a stored taxon stores the taxon with that
      author and every other field as it was, ids and URI included. */
  lemma AuthorUpdated(db: Db, id: int, author: Value)
    requires ValidDb(db) && (TaxonTable, id) in db.records
    ensures var stored := db.records[(TaxonTable, id)];
      && Merge(stored, map["author" := author]) + StampOf(TaxonTable, id) == stored["author" := author]
      && Evolves(db, db.(records := db.records[(TaxonTable, id) := stored["author" := author]]))
  {
    var stored := db.records[(TaxonTable, id)];
    assert Stamped(TaxonTable, id, stored);
    MergeOne(stored, "author", author);
    RestampIsNoop(TaxonTable, id, stored["author" := author]);
    UpdateKeeps(stored, map["author" := author]);
  }

  /** update_author: nothing is sent when the author is already `author`;
      otherwise the stored taxon gets `author` and keeps every other field. */
  method UpdateAuthor(s: Session, taxon: Record, author: string) returns (r: Result<Record>)
    requires s.Valid()
    modifies s`db
    ensures s.Valid() && Evolves(old(s.db), s.db) && Touches(old(s.db), s.db, TaxonKey(taxon))
    ensures r.Err? ==> s.db == old(s.db)
    ensures "author" !in taxon ==> r == Err(MissingField("author"))
    ensures "author" in taxon && taxon["author"] == Str(author) ==> r == Ok(taxon) && s.db == old(s.db)
    ensures "author" in taxon && taxon["author"] != Str(author) && IdOf(taxon).Ok? ==>
      var key := (TaxonTable, IdOf(taxon).value);
      && (r.Ok? <==> s.LoggedIn() && key in old(s.db.records))
      && (r.Ok? ==>
            && r.value == old(s.db.records[key])["author" := Str(author)]
            && s.db == old(s.db).(records := old(s.db.records)[key := r.value]))
  {
    var current :- Field(taxon, "author");
    if current == Str(author) {
      EvolvesRefl(s.db);
      return Ok(taxon);
    }
    var id :- IdOf(taxon);
    TaxonTableIsLower();
    ghost var before := s.db;
    r := s.UpdateResource(TaxonTable, id, map["author" := Str(author)], StatusOk, StatusOk);
    if r.Ok? {
      AuthorUpdated(before, id, Str(author));
      TouchesSet(before, (TaxonTable, id), r.value);
    } else {
      EvolvesRefl(s.db);
    }
  }

  /** The fields an accepted taxon is created with. */
  function AcceptedTaxonData(name: string, author: Option<string>, rankId: Value, itemUri: Value, parentUri: Value): Record {
    map[
      "name" := Str(name),
      "author" := (if author.Some? then Str(author.value) else Null),
      "isaccepted" := Bool(true),
      "acceptedtaxon" := Null,
      "ishybrid" := Bool(false),
      "rankid" := rankId,
      "version" := Int(0),
      "definitionitem" := itemUri,
      "parent" := parentUri
    ]
  }

  /** What holds of the accepted taxon `t` once the server has stored it. */
  ghost predicate AcceptedTaxonStored(before: Db, after: Db, t: Record, defItem: Record, name: string,
                                      parent: Record, author: Option<string>)
  {
    && "resource_uri" in parent && "resource_uri" in defItem
    && "name" in t && t["name"] == Str(name)
    && "isaccepted" in t && t["isaccepted"] == Bool(true)
    && "acceptedtaxon" in t && t["acceptedtaxon"] == Null
    && "author" in t && t["author"] == (if author.Some? then Str(author.value) else Null)
    && "definitionitem" in t && t["definitionitem"] == defItem["resource_uri"]
    && "parent" in t && t["parent"] == parent["resource_uri"]
    && IdOf(t) == Ok(before.nextId)
    && after == Db(before.records[(TaxonTable, before.nextId) := t], before.nextId + 1)
    && Evolves(before, after)
    && NamedTaxonIn(after, t)
    && (NamedTaxonIn(before, parent) ==> ParentName(after, t) == Some(parent["name"].s))
    && (ServedFrom(DefItemTable, defItem) ==> LinkedId(t, "definitionitem") == IdOf(defItem))
  }

  /** The created record holds the fields it was created with. */
  lemma AcceptedTaxonFields(id: int, name: string, author: Option<string>, rankId: Value, itemUri: Value, parentUri: Value)
    ensures var t := AcceptedTaxonData(name, author, rankId, itemUri, parentUri) + StampOf(TaxonTable, id);
      && "name" in t && t["name"] == Str(name)
      && "isaccepted" in t && t["isaccepted"] == Bool(true)
      && "acceptedtaxon" in t && t["acceptedtaxon"] == Null
      && "author" in t && t["author"] == (if author.Some? then Str(author.value) else Null)
      && "definitionitem" in t && t["definitionitem"] == itemUri
      && "parent" in t && t["parent"] == parentUri
  {
    var data := AcceptedTaxonData(name, author, rankId, itemUri, parentUri);
    CreatedField(TaxonTable, id, data, "name");
    CreatedField(TaxonTable, id, data, "isaccepted");
    CreatedField(TaxonTable, id, data, "acceptedtaxon");
    CreatedField(TaxonTable, id, data, "author");
    CreatedField(TaxonTable, id, data, "definitionitem");
    CreatedField(TaxonTable, id, data, "parent");
  }

  lemma AcceptedTaxonCreated(before: Db, defItem: Record, name: string, parent: Record, author: Option<string>)
    requires ValidDb(before) && "resource_uri" in parent && "resource_uri" in defItem && "rankid" in defItem
    ensures var t := AcceptedTaxonData(name, author, defItem["rankid"], defItem["resource_uri"], parent["resource_uri"])
                     + StampOf(TaxonTable, before.nextId);
      AcceptedTaxonStored(before, Db(before.records[(TaxonTable, before.nextId) := t], before.nextId + 1),
                          t, defItem, name, parent, author)
  {
    var data := AcceptedTaxonData(name, author, defItem["rankid"], defItem["resource_uri"], parent["resource_uri"]);
    var t := data + StampOf(TaxonTable, before.nextId);
    var after := Db(before.records[(TaxonTable, before.nextId) := t], before.nextId + 1);
    AcceptedTaxonFields(before.nextId, name, author, defItem["rankid"], defItem["resource_uri"], parent["resource_uri"]);
    CreatedTaxon(before, data);
    if NamedTaxonIn(before, parent) {
      NamedTaxonPreserved(before, after, parent);
      ParentNameOfLink(after, parent, t);
    }
    if ServedFrom(DefItemTable, defItem) {
      KnownTableNames();
      LinkTo(DefItemTable, defItem, t, "definitionitem");
    }
  }

  /** A created accepted taxon is what a lookup by its name, definition item
      and parent name finds, with or without the parent name. */
  lemma AcceptedTaxonMatches(before: Db, after: Db, t: Record, defItem: Record, name: string,
                             parent: Record, author: Option<string>)
    requires AcceptedTaxonStored(before, after, t, defItem, name, parent, author)
    requires ServedFrom(DefItemTable, defItem) && NamedTaxonIn(before, parent)
    ensures IsMatch(after, TaxaNamed(name, IdOf(defItem).value, Some(parent["name"].s)), before.nextId)
    ensures IsMatch(after, TaxaNamed(name, IdOf(defItem).value, None), before.nextId)
    ensures LinksToMatch(after, TaxaNamed(name, IdOf(defItem).value, Some(parent["name"].s)), t["resource_uri"])
  {
    var q := TaxaNamed(name, IdOf(defItem).value, Some(parent["name"].s));
    assert after.records[(TaxonTable, before.nextId)] == t;
    KnownTableNames();
    StampedMatchLink(after, q, before.nextId, t);
  }

  /** create_accepted_taxon (named by the script, not part of the files this
      model covers): create an accepted taxon with the given definition item,
      name, parent and optional author, and answer it. */
  method CreateAcceptedTaxon(s: Session, defItem: Record, name: string, parent: Option<Record>, author: Option<string>)
    returns (r: Result<Record>)
    requires s.Valid()
    modifies s`db
    ensures s.Valid() && Evolves(old(s.db), s.db) && Touches(old(s.db), s.db, {})
    ensures r.Err? ==> s.db == old(s.db)
    ensures parent.None? ==> r == Err(NoParent)
    ensures r.Ok? ==> parent.Some? && AcceptedTaxonStored(old(s.db), s.db, r.value, defItem, name, parent.value, author)
  {
    if parent.None? {
      return Err(NoParent);
    }
    var parentUri :- Field(parent.value, "resource_uri");
    var rankId :- Field(defItem, "rankid");
    var itemUri :- Field(defItem, "resource_uri");
    var data := AcceptedTaxonData(name, author, rankId, itemUri, parentUri);
    TaxonTableIsLower();
    ghost var before := s.db;
    r := s.CreateResource(TaxonTable, data, StatusCreated);
    if r.Ok? {
      AcceptedTaxonCreated(before, defItem, name, parent.value, author);
      TouchesAdd(before, (TaxonTable, before.nextId), r.value);
    } else {
      EvolvesRefl(s.db);
    }
  }
}
