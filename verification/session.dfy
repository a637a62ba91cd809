/** The API session of session.py:62-331: a login flag that guards every data
    operation, the four-slot scope table filled on login, and the four record
    operations with their status-code handling.

    The HTTP transport is not modelled: each operation receives the status code
    the server answered as a parameter, and the server's records are the field
    `db`. A status of 200 for a record that does not exist is read as 404. */
module Sessions {
  import opened Outcomes
  import opened Uri
  import opened Store
  import opened Remote

  const Scopes: set<string> := {"Collection", "Discipline", "Division", "Institution"}

  const StatusOk := 200
  const StatusCreated := 201

  /** The chain collection -> discipline -> division -> institution that
      `_update_hierarchy` follows resolves in `db`, to the three given ids. */
  ghost predicate ScopeChain(db: Db, collection: int, discipline: int, division: int, institution: int) {
    && ("collection", collection) in db.records
    && LinkedId(db.records[("collection", collection)], "discipline") == Ok(discipline)
    && ("discipline", discipline) in db.records
    && LinkedId(db.records[("discipline", discipline)], "division") == Ok(division)
    && ("division", division) in db.records
    && LinkedId(db.records[("division", division)], "institution") == Ok(institution)
  }

  ghost predicate ChainResolves(db: Db, collection: int) {
    && ("collection", collection) in db.records
    && LinkedId(db.records[("collection", collection)], "discipline").Ok?
    && var dis := LinkedId(db.records[("collection", collection)], "discipline").value;
    && ("discipline", dis) in db.records
    && LinkedId(db.records[("discipline", dis)], "division").Ok?
    && var div := LinkedId(db.records[("discipline", dis)], "division").value;
    && ("division", div) in db.records
    && LinkedId(db.records[("division", div)], "institution").Ok?
  }

  /** Storing the four ids keeps the scope table's keys and holds each id
      under its own scope. */
  lemma ScopesUpdated(h: map<string, int>, collection: int, discipline: int, division: int, institution: int)
    requires h.Keys == Scopes
    ensures var n := h["Institution" := institution]["Division" := division]
                      ["Discipline" := discipline]["Collection" := collection];
      && n.Keys == Scopes
      && n["Collection"] == collection && n["Discipline"] == discipline
      && n["Division"] == division && n["Institution"] == institution
  {
  }

  class Session {
    /** The logged-in Specify user, `None` while logged out. */
    var specifyUser: Option<Record>
    /** The `_hierarchy` scope table: one id per scope name. */
    var hierarchy: map<string, int>
    /** Collection names and ids offered by the server before login. */
    var collections: map<string, int>
    /** The server's records. */
    var db: Db

    ghost predicate Valid()
      reads this
    {
      ValidDb(db) && hierarchy.Keys == Scopes
    }

    predicate LoggedIn()
      reads this`specifyUser
    {
      specifyUser.Some?
    }

    /** A new session: logged out, every scope slot -1, and the collections
        the server lists on its login page. */
    constructor (available: map<string, int>, server: Db)
      requires ValidDb(server)
      ensures Valid() && !LoggedIn()
      ensures hierarchy == map["Collection" := -1, "Discipline" := -1, "Division" := -1, "Institution" := -1]
      ensures collections == available && db == server
    {
      specifyUser := None;
      hierarchy := map["Collection" := -1, "Discipline" := -1, "Division" := -1, "Institution" := -1];
      collections := available;
      db := server;
    }

    /** get_domain_id: the id of a scope, `None` for a name outside the four. */
    function GetDomainId(scope: string): (r: Option<int>)
      reads this
      requires Valid()
      ensures r.Some? <==> scope in Scopes
      ensures r.Some? ==> r.value == hierarchy[scope]
    {
      if scope in hierarchy then Some(hierarchy[scope]) else None
    }

    /** get_collection_id: the id of the named collection, `None` if there is none. */
    function GetCollectionId(name: string): (r: Option<int>)
      reads this`collections
      ensures r.Some? <==> name in collections
      ensures r.Some? ==> r.value == collections[name]
    {
      if name in collections then Some(collections[name]) else None
    }

    /** login: 403 and 400 are refused; any other answer logs `user` in and
        then fills the scope table from the collection's chain of records. */
    method Login(status: int, user: Record, collectionId: int) returns (r: Outcome)
      requires Valid()
      modifies this
      ensures Valid() && db == old(db) && collections == old(collections)
      ensures status == 403 ==> r == Fail(InvalidCredentials) && specifyUser == old(specifyUser)
      ensures status == 400 ==> r == Fail(BadRequest) && specifyUser == old(specifyUser)
      ensures status != 403 && status != 400 ==> specifyUser == Some(user)
      ensures status != 403 && status != 400 ==> (r.Pass? <==> ChainResolves(db, collectionId))
      ensures r.Pass? ==>
        && hierarchy["Collection"] == collectionId
        && ScopeChain(db, collectionId, hierarchy["Discipline"], hierarchy["Division"], hierarchy["Institution"])
      ensures r.Fail? ==> hierarchy == old(hierarchy)
    {
      if status == 403 {
        return Fail(InvalidCredentials);
      }
      if status == 400 {
        return Fail(BadRequest);
      }
      specifyUser := Some(user);
      r := UpdateHierarchy(collectionId);
    }

    /** _update_hierarchy: follow collection -> discipline -> division ->
        institution and store the four ids; on any failure nothing changes. */
    method UpdateHierarchy(collectionId: int) returns (r: Outcome)
      requires Valid()
      modifies this`hierarchy
      ensures Valid()
      ensures !LoggedIn() ==> r == Fail(NotLoggedIn)
      ensures LoggedIn() ==> (r.Pass? <==> ChainResolves(db, collectionId))
      ensures r.Pass? ==>
        && hierarchy["Collection"] == collectionId
        && ScopeChain(db, collectionId, hierarchy["Discipline"], hierarchy["Division"], hierarchy["Institution"])
      ensures r.Fail? ==> hierarchy == old(hierarchy)
    {
      LowerOfLowercase("collection");
      LowerOfLowercase("discipline");
      LowerOfLowercase("division");
      var collection := FetchResource("collection", collectionId, StatusOk);
      if collection.Err? {
        return Fail(collection.error);
      }
      ghost var c := db.records[("collection", collectionId)];
      assert collection.value == c;
      var dis := LinkedId(collection.value, "discipline");
      if dis.Err? {
        assert !ChainResolves(db, collectionId);
        return Fail(dis.error);
      }
      var discipline := FetchResource("discipline", dis.value, StatusOk);
      if discipline.Err? {
        assert ("discipline", dis.value) !in db.records;
        assert !ChainResolves(db, collectionId);
        return Fail(discipline.error);
      }
      ghost var d := db.records[("discipline", dis.value)];
      assert discipline.value == d;
      var div := LinkedId(discipline.value, "division");
      if div.Err? {
        assert !ChainResolves(db, collectionId);
        return Fail(div.error);
      }
      var division := FetchResource("division", div.value, StatusOk);
      if division.Err? {
        assert ("division", div.value) !in db.records;
        assert !ChainResolves(db, collectionId);
        return Fail(division.error);
      }
      assert division.value == db.records[("division", div.value)];
      var inst := LinkedId(division.value, "institution");
      if inst.Err? {
        assert !ChainResolves(db, collectionId);
        return Fail(inst.error);
      }
      assert ChainResolves(db, collectionId);
      assert ScopeChain(db, collectionId, dis.value, div.value, inst.value);
      ScopesUpdated(hierarchy, collectionId, dis.value, div.value, inst.value);
      hierarchy := hierarchy["Institution" := inst.value]["Division" := div.value]
                            ["Discipline" := dis.value]["Collection" := collectionId];
      r := Pass;
    }

    /** fetch_resource: the stored record; 403 is NoPermission, any other
        answer but 200 an error carrying the status. */
    method FetchResource(table: string, id: int, status: int) returns (r: Result<Record>)
      ensures !LoggedIn() ==> r == Err(NotLoggedIn)
      ensures LoggedIn() && status == 403 ==> r == Err(NoPermission)
      ensures LoggedIn() && status != 403 && status != 200 ==> r == Err(HttpStatus(status))
      ensures r.Ok? <==> LoggedIn() && status == 200 && (Lower(table), id) in db.records
      ensures r.Ok? ==> r.value == db.records[(Lower(table), id)]
    {
      if !LoggedIn() {
        return Err(NotLoggedIn);
      }
      if status == 403 {
        return Err(NoPermission);
      } else if status != 200 {
        return Err(HttpStatus(status));
      }
      var key := (Lower(table), id);
      if key !in db.records {
        return Err(HttpStatus(404));
      }
      r := Ok(db.records[key]);
    }

    /** fetch_collection: the records answering a query, in ascending id
        order; 403 is NoPermission, any other answer but 200 an error. */
    method FetchCollection(q: Query, status: int) returns (r: Result<seq<Record>>)
      ensures !LoggedIn() ==> r == Err(NotLoggedIn)
      ensures LoggedIn() && status == 403 ==> r == Err(NoPermission)
      ensures LoggedIn() && status != 403 && status != 200 ==> r == Err(HttpStatus(status))
      ensures LoggedIn() && status == 200 ==> r == Ok(Select(db, q, db.nextId))
    {
      if !LoggedIn() {
        return Err(NotLoggedIn);
      }
      if status == 403 {
        return Err(NoPermission);
      } else if status != 200 {
        return Err(HttpStatus(status));
      }
      var found: seq<Record> := [];
      var id := 0;
      while id < db.nextId
        invariant 0 <= id <= db.nextId
        invariant found == Select(db, q, id)
      {
        if IsMatch(db, q, id) {
          found := found + [db.records[(QueryTable(q), id)]];
        }
        id := id + 1;
      }
      r := Ok(found);
    }

    /** create_resource: the server stores `data` under a fresh id, stamped
        with that id and its URI, and answers the stored record; 403 is
        NoPermission, any other answer but 201 an error. */
    method CreateResource(table: string, data: Record, status: int) returns (r: Result<Record>)
      requires Valid()
      modifies this`db
      ensures Valid()
      ensures !LoggedIn() ==> r == Err(NotLoggedIn)
      ensures LoggedIn() && status == 403 ==> r == Err(NoPermission)
      ensures LoggedIn() && status != 403 && status != 201 ==> r == Err(HttpStatus(status))
      ensures r.Ok? <==> LoggedIn() && status == 201 && IsTableName(Lower(table))
      ensures r.Err? ==> db == old(db)
      ensures r.Ok? ==>
        && r.value == data + StampOf(Lower(table), old(db.nextId))
        && db == Db(old(db.records)[(Lower(table), old(db.nextId)) := r.value], old(db.nextId) + 1)
    {
      if !LoggedIn() {
        return Err(NotLoggedIn);
      }
      if status == 403 {
        return Err(NoPermission);
      } else if status != 201 {
        return Err(HttpStatus(status));
      }
      var t := Lower(table);
      if !IsTableName(t) {
        return Err(HttpStatus(404));
      }
      var id := db.nextId;
      var stored := data + StampOf(t, id);
      LowerIdempotent(table);
      db := Db(db.records[(t, id) := stored], id + 1);
      r := Ok(stored);
    }

    /** update_resource: fetch the record, overwrite the keys of `updated`,
        send the result back. 400 means the version was missing, 409 a
        version mismatch, any other answer but 200 an error. The server keeps
        the record's id and URI. */
    method UpdateResource(table: string, id: int, updated: Record, fetchStatus: int, putStatus: int)
      returns (r: Result<Record>)
      requires Valid()
      modifies this`db
      ensures Valid()
      ensures r.Err? ==> db == old(db)
      ensures !LoggedIn() ==> r == Err(NotLoggedIn)
      ensures LoggedIn() && fetchStatus == 403 ==> r == Err(NoPermission)
      ensures LoggedIn() && fetchStatus == 200 && (Lower(table), id) in db.records ==>
        && (putStatus == 400 ==> r == Err(VersionMissing))
        && (putStatus == 409 ==> r == Err(VersionMismatch))
        && (putStatus != 400 && putStatus != 409 && putStatus != 200 ==> r == Err(HttpStatus(putStatus)))
      ensures r.Ok? <==> LoggedIn() && fetchStatus == 200 && putStatus == 200 && (Lower(table), id) in old(db.records)
      ensures r.Ok? ==>
        && r.value == Merge(old(db.records[(Lower(table), id)]), updated) + StampOf(Lower(table), id)
        && db == old(db).(records := old(db.records)[(Lower(table), id) := r.value])
    {
      var current :- FetchResource(table, id, fetchStatus);
      var sent := Merge(current, updated);
      if putStatus == 400 {
        return Err(VersionMissing);
      } else if putStatus == 409 {
        return Err(VersionMismatch);
      } else if putStatus != 200 {
        return Err(HttpStatus(putStatus));
      }
      var t := Lower(table);
      var stored := sent + StampOf(t, id);
      LowerIdempotent(table);
      db := db.(records := db.records[(t, id) := stored]);
      r := Ok(stored);
    }

    /** logout: only a logged-in session can log out; afterwards it is logged out. */
    method Logout() returns (r: Outcome)
      requires Valid()
      modifies this`specifyUser
      ensures Valid()
      ensures !old(LoggedIn()) ==> r == Fail(NotLoggedIn) && specifyUser == old(specifyUser)
      ensures old(LoggedIn()) ==> r == Pass && !LoggedIn()
    {
      if !LoggedIn() {
        return Fail(NotLoggedIn);
      }
      specifyUser := None;
      r := Pass;
    }
  }
}
