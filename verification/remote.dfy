/** The Specify server, as the import script sees it: an in-memory database
    of serialized records, what it answers to the filter queries the script
    sends, and the ways the database may change while a row is imported. */
module Remote {
  import opened Outcomes
  import opened Uri
  import opened Store

  ghost predicate ValidDb(db: Db) {
    forall key | key in db.records ::
      && IsTableName(key.0) && 0 <= key.1 < db.nextId
      && Stamped(key.0, key.1, db.records[key])
  }

  predicate IsMatch(db: Db, q: Query, id: int) {
    (QueryTable(q), id) in db.records && Matches(db, q, db.records[(QueryTable(q), id)])
  }

  /** The stored records of `table` with an id below `n` that `keep`
      accepts, in ascending id order. */
  function Filtered(db: Db, table: string, keep: int -> bool, n: nat): seq<Record> {
    if n == 0 then []
    else Filtered(db, table, keep, n - 1)
         + (if keep(n - 1) && (table, n - 1) in db.records then [db.records[(table, n - 1)]] else [])
  }

  /** What the server answers to a query: the matching records with an id
      below `n`, in ascending id order. */
  function Select(db: Db, q: Query, n: nat): seq<Record> {
    Filtered(db, QueryTable(q), id => IsMatch(db, q, id), n)
  }

  ghost predicate IsFirstMatch(db: Db, q: Query, id: int) {
    IsMatch(db, q, id) && forall j | 0 <= j < id :: !IsMatch(db, q, j)
  }

  ghost predicate NoMatch(db: Db, q: Query) {
    forall id :: !IsMatch(db, q, id)
  }

  /** A filtered answer is empty exactly when no stored record below `n` is kept. */
  lemma {:induction false} FilteredEmpty(db: Db, table: string, keep: int -> bool, n: nat)
    ensures Filtered(db, table, keep, n) == [] <==>
            forall id | 0 <= id < n :: !(keep(id) && (table, id) in db.records)
  {
    if n > 0 {
      FilteredEmpty(db, table, keep, n - 1);
    }
  }

  /** The first record of a non-empty filtered answer is the kept record with
      the smallest id. */
  lemma {:induction false} FilteredHead(db: Db, table: string, keep: int -> bool, n: nat) returns (id: int)
    requires Filtered(db, table, keep, n) != []
    ensures 0 <= id < n && keep(id) && (table, id) in db.records
    ensures forall j | 0 <= j < id :: !(keep(j) && (table, j) in db.records)
    ensures Filtered(db, table, keep, n)[0] == db.records[(table, id)]
  {
    var prev := Filtered(db, table, keep, n - 1);
    var last := if keep(n - 1) && (table, n - 1) in db.records then [db.records[(table, n - 1)]] else [];
    assert Filtered(db, table, keep, n) == prev + last;
    if prev != [] {
      id := FilteredHead(db, table, keep, n - 1);
      assert (prev + last)[0] == prev[0];
    } else {
      FilteredEmpty(db, table, keep, n - 1);
      assert prev + last == last;
      id := n - 1;
    }
  }

  /** Every record of a filtered answer is a stored, kept record. */
  lemma {:induction false} FilteredSound(db: Db, table: string, keep: int -> bool, n: nat, k: nat) returns (id: int)
    requires k < |Filtered(db, table, keep, n)|
    ensures 0 <= id < n && keep(id) && (table, id) in db.records
    ensures Filtered(db, table, keep, n)[k] == db.records[(table, id)]
  {
    var prev := Filtered(db, table, keep, n - 1);
    if k < |prev| {
      id := FilteredSound(db, table, keep, n - 1, k);
    } else {
      id := n - 1;
    }
  }

  /** A filter that keeps less answers less. */
  lemma {:induction false} FilteredNarrows(db: Db, table: string, keep1: int -> bool, keep2: int -> bool, n: nat)
    requires forall id | 0 <= id < n :: keep1(id) ==> keep2(id)
    ensures forall r | r in Filtered(db, table, keep1, n) :: r in Filtered(db, table, keep2, n)
  {
    if n > 0 {
      FilteredNarrows(db, table, keep1, keep2, n - 1);
    }
  }

  /** The answer is empty exactly when no record below `n` matches. */
  lemma SelectEmpty(db: Db, q: Query, n: nat)
    ensures Select(db, q, n) == [] <==> forall id | 0 <= id < n :: !IsMatch(db, q, id)
  {
    FilteredEmpty(db, QueryTable(q), id => IsMatch(db, q, id), n);
  }

  /** Over the whole database, an empty answer means no record matches at all. */
  lemma SelectAllEmpty(db: Db, q: Query)
    requires ValidDb(db)
    ensures Select(db, q, db.nextId) == [] <==> NoMatch(db, q)
  {
    SelectEmpty(db, q, db.nextId);
  }

  /** What get_taxon and get_defitem take from an answer: its first record, if any. */
  ghost function FirstAnswer(db: Db, q: Query): Option<Record> {
    var found := Select(db, q, db.nextId);
    if found == [] then None else Some(found[0])
  }

  /** The first answer is nothing exactly when no record matches; otherwise
      it is the stored match with the smallest id, as the server serves it. */
  lemma FirstAnswerSpec(db: Db, q: Query)
    requires ValidDb(db)
    ensures FirstAnswer(db, q).None? <==> NoMatch(db, q)
    ensures FirstAnswer(db, q).Some? ==>
      var r := FirstAnswer(db, q).value;
      && IdOf(r).Ok? && IsFirstMatch(db, q, IdOf(r).value)
      && db.records[(QueryTable(q), IdOf(r).value)] == r
      && ServedFrom(QueryTable(q), r)
      && (q.TaxaNamed? ==> NamedTaxonIn(db, r))
  {
    SelectAllEmpty(db, q);
    if Select(db, q, db.nextId) != [] {
      var id := SelectHead(db, q, db.nextId);
      assert (QueryTable(q), id) in db.records;
    }
  }

  /** A record that matches is found by the next lookup. */
  lemma MatchFound(db: Db, q: Query, id: int)
    requires ValidDb(db) && IsMatch(db, q, id)
    ensures FirstAnswer(db, q).Some?
  {
    FirstAnswerSpec(db, q);
  }

  /** The first record of a non-empty answer is the match with the smallest id. */
  lemma SelectHead(db: Db, q: Query, n: nat) returns (id: int)
    requires Select(db, q, n) != []
    ensures 0 <= id < n && IsFirstMatch(db, q, id)
    ensures Select(db, q, n)[0] == db.records[(QueryTable(q), id)]
  {
    id := FilteredHead(db, QueryTable(q), j => IsMatch(db, q, j), n);
  }

  /** Every record of an answer is a stored, matching record. */
  lemma SelectSound(db: Db, q: Query, n: nat, k: nat) returns (id: int)
    requires k < |Select(db, q, n)|
    ensures 0 <= id < n && IsMatch(db, q, id)
    ensures Select(db, q, n)[k] == db.records[(QueryTable(q), id)]
  {
    id := FilteredSound(db, QueryTable(q), j => IsMatch(db, q, j), n, k);
  }

  /** Giving a parent name only narrows a taxon query: every record found
      with it is found without it. */
  lemma ParentFilterNarrows(db: Db, name: string, defItem: int, parent: string, n: nat)
    ensures forall r | r in Select(db, TaxaNamed(name, defItem, Some(parent)), n) ::
              r in Select(db, TaxaNamed(name, defItem, None), n)
  {
    FilteredNarrows(db, TaxonTable, id => IsMatch(db, TaxaNamed(name, defItem, Some(parent)), id),
                    id => IsMatch(db, TaxaNamed(name, defItem, None), id), n);
  }

  /** Without a parent name, the parent plays no part in a taxon query. */
  lemma ParentIgnoredWithoutName(db: Db, name: string, defItem: int, r: Record, v: Value)
    ensures Matches(db, TaxaNamed(name, defItem, None), r)
        <==> Matches(db, TaxaNamed(name, defItem, None), r["parent" := v])
  {
    assert LinkedId(r["parent" := v], "definitionitem") == LinkedId(r, "definitionitem");
  }

  // ---------------------------------------------------------------------------
  // How the database may change while rows are imported

  /** The only fields the import script ever updates on a stored record. */
  const MutableFields: set<string> := {"author", "isaccepted", "acceptedtaxon"}

  /** `r2` is `r1` with at most its mutable fields changed, and a synonym
      (`isaccepted` False) stays a synonym. */
  ghost predicate Keeps(r1: Record, r2: Record) {
    && r1 - MutableFields == r2 - MutableFields
    && ("isaccepted" in r1 && r1["isaccepted"] == Bool(false) ==>
          "isaccepted" in r2 && r2["isaccepted"] == Bool(false))
  }

  /** `d2` is `d1` with records added and existing records kept. */
  ghost predicate Evolves(d1: Db, d2: Db) {
    && d1.nextId <= d2.nextId
    && forall key | key in d1.records :: key in d2.records && Keeps(d1.records[key], d2.records[key])
  }

  lemma KeepsField(r1: Record, r2: Record, k: string)
    requires Keeps(r1, r2) && k !in MutableFields
    ensures k in r1 <==> k in r2
    ensures k in r1 ==> r1[k] == r2[k]
  {
    assert k in r1 <==> k in r1 - MutableFields;
    assert k in r2 <==> k in r2 - MutableFields;
    if k in r1 {
      assert r1[k] == (r1 - MutableFields)[k];
      assert r2[k] == (r2 - MutableFields)[k];
    }
  }

  lemma EvolvesRefl(d: Db)
    ensures Evolves(d, d)
  {
  }

  lemma EvolvesTrans(d1: Db, d2: Db, d3: Db)
    requires Evolves(d1, d2) && Evolves(d2, d3)
    ensures Evolves(d1, d3)
  {
    forall key | key in d1.records
      ensures key in d3.records && Keeps(d1.records[key], d3.records[key])
    {
      var r1, r2, r3 := d1.records[key], d2.records[key], d3.records[key];
      assert Keeps(r1, r2) && Keeps(r2, r3);
    }
  }

  /** Adding a record under a fresh id keeps everything that was there. */
  lemma AddEvolves(db: Db, key: (string, int), r: Record)
    requires ValidDb(db) && key.1 >= db.nextId
    ensures Evolves(db, Db(db.records[key := r], key.1 + 1))
  {
  }

  /** Every record of `d2` that `d1` does not hold has an id `d1` had not
      handed out yet. */
  ghost predicate AddsFresh(d1: Db, d2: Db) {
    forall key | key in d2.records && key !in d1.records :: d1.nextId <= key.1
  }

  /** `d2` is `d1` with every record outside `touched` exactly as it was, and
      records added only under ids `d1` had not handed out yet. */
  ghost predicate Touches(d1: Db, d2: Db, touched: set<(string, int)>) {
    && d1.nextId <= d2.nextId
    && (forall key | key in d1.records && key !in touched ::
          key in d2.records && d2.records[key] == d1.records[key])
    && AddsFresh(d1, d2)
  }

  lemma TouchesFresh(d1: Db, d2: Db, touched: set<(string, int)>)
    requires Touches(d1, d2, touched)
    ensures AddsFresh(d1, d2)
  {
  }

  /** The key of a taxon record, when it has an id. */
  function TaxonKey(t: Record): (keys: set<(string, int)>)
    ensures |keys| <= 1
    ensures forall key | key in keys :: key.0 == TaxonTable && IdOf(t) == Ok(key.1)
    ensures IdOf(t).Ok? ==> (TaxonTable, IdOf(t).value) in keys
  {
    if IdOf(t).Ok? then {(TaxonTable, IdOf(t).value)} else {}
  }

  lemma TouchesRefl(d: Db)
    ensures Touches(d, d, {})
  {
  }

  lemma TouchesTrans(d1: Db, d2: Db, d3: Db, k1: set<(string, int)>, k2: set<(string, int)>)
    requires Touches(d1, d2, k1) && Touches(d2, d3, k2)
    ensures Touches(d1, d3, k1 + k2)
  {
  }

  lemma TouchesWiden(d1: Db, d2: Db, k1: set<(string, int)>, k2: set<(string, int)>)
    requires Touches(d1, d2, k1) && k1 <= k2
    ensures Touches(d1, d2, k2)
  {
  }

  /** Adding a record under a fresh id rewrites nothing. */
  lemma TouchesAdd(db: Db, key: (string, int), r: Record)
    requires ValidDb(db) && key.1 >= db.nextId
    ensures Touches(db, Db(db.records[key := r], key.1 + 1), {})
  {
  }

  /** Overwriting a stored record rewrites that record only. */
  lemma TouchesSet(db: Db, key: (string, int), r: Record)
    requires key in db.records
    ensures Touches(db, db.(records := db.records[key := r]), {key})
  {
  }

  /** Every stored record's `parent` points at an id the server had handed
      out: the server holds no reference to a record yet to come. */
  ghost predicate ParentsIssued(db: Db) {
    forall key | key in db.records && LinkedId(db.records[key], "parent").Ok? ::
      LinkedId(db.records[key], "parent").value < db.nextId
  }

  /** Whether a record that was there matches a query stays the same as the
      database evolves, when no stored parent points at a fresh id. */
  lemma MatchStable(d1: Db, d2: Db, q: Query, id: int)
    requires ValidDb(d1) && ParentsIssued(d1) && Evolves(d1, d2) && AddsFresh(d1, d2)
    requires id < d1.nextId
    ensures IsMatch(d1, q, id) <==> IsMatch(d2, q, id)
  {
    var key := (QueryTable(q), id);
    if key in d1.records {
      var r1, r2 := d1.records[key], d2.records[key];
      KeepsField(r1, r2, "name");
      KeepsField(r1, r2, "definitionitem");
      KeepsField(r1, r2, "treedef");
      KeepsField(r1, r2, "parent");
      assert LinkedId(r1, "definitionitem") == LinkedId(r2, "definitionitem");
      assert LinkedId(r1, "treedef") == LinkedId(r2, "treedef");
      assert LinkedId(r1, "parent") == LinkedId(r2, "parent");
      if LinkedId(r1, "parent").Ok? {
        var pk := (TaxonTable, LinkedId(r1, "parent").value);
        if pk in d1.records {
          KeepsField(d1.records[pk], d2.records[pk], "name");
        } else {
          assert pk !in d2.records;
        }
      }
      assert ParentName(d1, r1) == ParentName(d2, r2);
    } else {
      assert key !in d2.records;
    }
  }

  /** The first match of a query stays its first match as the database
      evolves, when no stored parent points at a fresh id. */
  lemma FirstMatchStable(d1: Db, d2: Db, q: Query, id: int)
    requires ValidDb(d1) && ParentsIssued(d1) && Evolves(d1, d2) && AddsFresh(d1, d2)
    requires IsFirstMatch(d1, q, id)
    ensures IsFirstMatch(d2, q, id)
  {
    MatchStable(d1, d2, q, id);
    forall j | 0 <= j < id
      ensures !IsMatch(d2, q, j)
    {
      MatchStable(d1, d2, q, j);
    }
  }

  /** A taxon lookup by name, item and parent name matches a record only if
      no different such lookup does: a record has one name, one item and one
      parent. */
  lemma MatchesOneLookup(db: Db, q1: Query, q2: Query, id: int)
    requires q1.TaxaNamed? && q2.TaxaNamed? && q1.parentName.Some? && q2.parentName.Some?
    requires q1 != q2 && IsMatch(db, q2, id)
    ensures !IsMatch(db, q1, id)
  {}

  /** The first match of a query is its first answer. */
  lemma FirstAnswerOf(db: Db, q: Query, id: int)
    requires ValidDb(db) && IsFirstMatch(db, q, id)
    ensures FirstAnswer(db, q) == Some(db.records[(QueryTable(q), id)])
  {
    SelectEmpty(db, q, db.nextId);
    var other := SelectHead(db, q, db.nextId);
    assert !(other < id) && !(id < other);
  }

  /** Overwriting a record with itself merged with changes to mutable fields
      only, never accepting a synonym, keeps it. */
  lemma UpdateKeeps(current: Record, updated: Record)
    requires updated.Keys <= MutableFields
    requires "isaccepted" in updated ==> updated["isaccepted"] == Bool(false)
    ensures Keeps(current, Merge(current, updated))
  {
    var m := Merge(current, updated);
    assert current - MutableFields == m - MutableFields;
  }

  /** A match stays a match as the database evolves: the fields a query reads
      (name, definition item, parent, and the parent's name) never change. */
  lemma MatchPreserved(d1: Db, d2: Db, q: Query, id: int)
    requires Evolves(d1, d2) && IsMatch(d1, q, id)
    ensures IsMatch(d2, q, id)
  {
    var key := (QueryTable(q), id);
    var r1, r2 := d1.records[key], d2.records[key];
    KeepsField(r1, r2, "name");
    KeepsField(r1, r2, "definitionitem");
    KeepsField(r1, r2, "treedef");
    KeepsField(r1, r2, "parent");
    assert LinkedId(r1, "definitionitem") == LinkedId(r2, "definitionitem");
    assert LinkedId(r1, "treedef") == LinkedId(r2, "treedef");
    assert LinkedId(r1, "parent") == LinkedId(r2, "parent");
    if q.TaxaNamed? && q.parentName.Some? {
      var p := LinkedId(r1, "parent").value;
      KeepsField(d1.records[(TaxonTable, p)], d2.records[(TaxonTable, p)], "name");
    }
  }

  /** `v` is the resource URI of a record that `q` finds. */
  ghost predicate LinksToMatch(db: Db, q: Query, v: Value) {
    v.Str? && ExtractIdFromUri(v.s).Ok? && IsMatch(db, q, ExtractIdFromUri(v.s).value)
  }

  /** `v` is the URI of a record `q` finds, whose author is `author`. */
  ghost predicate AcceptedAt(db: Db, q: Query, v: Value, author: string) {
    && LinksToMatch(db, q, v)
    && var key := (QueryTable(q), ExtractIdFromUri(v.s).value);
    && "author" in db.records[key] && db.records[key]["author"] == Str(author)
  }

  /** A URI naming the record at `id` of the query's table links to a match
      only when that record matches. */
  lemma LinkedMatchAt(db: Db, q: Query, v: Value, id: int)
    requires IsTableName(QueryTable(q)) && id >= 0
    requires LinksToMatch(db, q, v) && v == Str(ConstructApiLink(QueryTable(q), id))
    ensures IsMatch(db, q, id)
  {
    ExtractConstructedId(QueryTable(q), id);
  }

  /** Every record with an id from `from` up to `to` matches `q1` or `q2`. */
  ghost predicate MatchesEither(db: Db, q1: Query, q2: Query, from: int, to: int) {
    forall id | from <= id < to :: IsMatch(db, q1, id) || IsMatch(db, q2, id)
  }

  /** One or two records added: the last matches `q1` and, when there are
      two, the first matches `q2`. */
  lemma EitherOfLast(db: Db, q1: Query, q2: Query, from: int, to: int)
    requires from < to && IsMatch(db, q1, to - 1)
    requires to == from + 1 || (to == from + 2 && IsMatch(db, q2, from))
    ensures MatchesEither(db, q1, q2, from, to)
  {
    forall id | from <= id < to
      ensures IsMatch(db, q1, id) || IsMatch(db, q2, id)
    {
      if id != to - 1 {
        assert id == from;
      }
    }
  }

  lemma MatchesEitherEvolves(d1: Db, d2: Db, q1: Query, q2: Query, from: int, to: int)
    requires Evolves(d1, d2) && MatchesEither(d1, q1, q2, from, to)
    ensures MatchesEither(d2, q1, q2, from, to)
  {
    forall id | from <= id < to
      ensures IsMatch(d2, q1, id) || IsMatch(d2, q2, id)
    {
      if IsMatch(d1, q1, id) {
        MatchPreserved(d1, d2, q1, id);
      } else {
        MatchPreserved(d1, d2, q2, id);
      }
    }
  }

  /** Every record with an id from `from` up to `to` matches `q` or, when
      `either` holds, `q1` or `q2`. */
  ghost predicate AddedMatch(db: Db, q: Query, either: bool, q1: Query, q2: Query, from: int, to: int) {
    forall id | from <= id < to :: IsMatch(db, q, id) || (either && (IsMatch(db, q1, id) || IsMatch(db, q2, id)))
  }

  /** The last record added matches `q`; the ones before it, if any, match
      `q1` or `q2`. */
  lemma AddedOfLast(db: Db, q: Query, either: bool, q1: Query, q2: Query, from: int, to: int)
    requires from < to && IsMatch(db, q, to - 1)
    requires either ==> MatchesEither(db, q1, q2, from, to - 1)
    requires !either ==> to == from + 1
    ensures AddedMatch(db, q, either, q1, q2, from, to)
  {
    forall id | from <= id < to
      ensures IsMatch(db, q, id) || (either && (IsMatch(db, q1, id) || IsMatch(db, q2, id)))
    {
      if id < to - 1 {
        assert either && from <= id < to - 1;
      }
    }
  }

  lemma LinksToMatchPreserved(d1: Db, d2: Db, q: Query, v: Value)
    requires Evolves(d1, d2) && LinksToMatch(d1, q, v)
    ensures LinksToMatch(d2, q, v)
  {
    MatchPreserved(d1, d2, q, ExtractIdFromUri(v.s).value);
  }

  /** The URI a matching record is stamped with leads back to it. */
  lemma StampedMatchLink(db: Db, q: Query, id: int, t: Record)
    requires IsTableName(QueryTable(q)) && id >= 0 && Stamped(QueryTable(q), id, t)
    requires IsMatch(db, q, id)
    ensures LinksToMatch(db, q, t["resource_uri"])
  {
    ExtractConstructedId(QueryTable(q), id);
  }

  /** `t` is a taxon record the server holds, stamped, whose name is still its
      stored name. */
  ghost predicate NamedTaxonIn(db: Db, t: Record) {
    && "id" in t && t["id"].Int? && t["id"].i >= 0
    && Stamped(TaxonTable, t["id"].i, t)
    && "name" in t && t["name"].Str?
    && (TaxonTable, t["id"].i) in db.records
    && "name" in db.records[(TaxonTable, t["id"].i)]
    && db.records[(TaxonTable, t["id"].i)]["name"] == t["name"]
  }

  lemma NamedTaxonPreserved(d1: Db, d2: Db, t: Record)
    requires Evolves(d1, d2) && NamedTaxonIn(d1, t)
    ensures NamedTaxonIn(d2, t)
  {
    var key := (TaxonTable, t["id"].i);
    KeepsField(d1.records[key], d2.records[key], "name");
  }

  /** A stored record's resource URI leads back to its id. */
  lemma StampedLink(table: string, id: int, r: Record)
    requires IsTableName(table) && id >= 0 && Stamped(table, id, r)
    ensures LinkedId(r, "resource_uri") == Ok(id)
  {
    ExtractConstructedId(table, id);
  }

  /** Stamping a stamped record again changes nothing. */
  lemma RestampIsNoop(table: string, id: int, r: Record)
    requires Stamped(table, id, r)
    ensures r + StampOf(table, id) == r
  {
  }

  /** Merging a single field is setting it. */
  lemma MergeOne(r: Record, k: string, v: Value)
    ensures Merge(r, map[k := v]) == r[k := v]
  {
  }

  /** A created record holds the data it was created with, except for the
      two stamped fields. */
  lemma CreatedField(table: string, id: int, data: Record, k: string)
    requires k in data && k != "id" && k != "resource_uri"
    ensures k in data + StampOf(table, id) && (data + StampOf(table, id))[k] == data[k]
  {
  }

  /** A taxon created with a text name is held by the database it is added
      to, under the id the store handed out. */
  lemma CreatedTaxon(db: Db, data: Record)
    requires ValidDb(db) && "name" in data && data["name"].Str?
    ensures var t := data + StampOf(TaxonTable, db.nextId);
      && IdOf(t) == Ok(db.nextId)
      && Evolves(db, Db(db.records[(TaxonTable, db.nextId) := t], db.nextId + 1))
      && NamedTaxonIn(Db(db.records[(TaxonTable, db.nextId) := t], db.nextId + 1), t)
  {
    var t := data + StampOf(TaxonTable, db.nextId);
    CreatedField(TaxonTable, db.nextId, data, "name");
    AddEvolves(db, (TaxonTable, db.nextId), t);
  }

  /** `r` is a record of `table` as the server serves it: its id and URI agree. */
  ghost predicate ServedFrom(table: string, r: Record) {
    IdOf(r).Ok? && IdOf(r).value >= 0 && Stamped(table, IdOf(r).value, r)
  }

  /** A field holding a served record's URI links to that record's id. */
  lemma LinkTo(table: string, r: Record, x: Record, key: string)
    requires IsTableName(table) && ServedFrom(table, r)
    requires key in x && x[key] == r["resource_uri"]
    ensures LinkedId(x, key) == IdOf(r)
  {
    ExtractConstructedId(table, IdOf(r).value);
  }

  /** A record whose `parent` is the resource URI of a stored taxon has that
      taxon's name as its parent name. */
  lemma ParentNameOfLink(db: Db, t: Record, r: Record)
    requires NamedTaxonIn(db, t)
    requires "parent" in r && r["parent"] == t["resource_uri"]
    ensures ParentName(db, r) == Some(t["name"].s)
  {
    var i := t["id"].i;
    KnownTableNames();
    ExtractConstructedId(TaxonTable, i);
    assert r["parent"] == Str(ConstructApiLink(TaxonTable, i));
    assert LinkedId(r, "parent") == Ok(i);
  }
}
