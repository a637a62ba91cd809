# Specify 7 taxon import, modelled in Dafny

This project models the demo script that imports a CSV file of mammal taxa
into a Specify 7 database through its REST API. Its parts, by module:

- **Resource URIs** (`uri.dfy`, module `Uri`).
  - `construct_api_link` builds `/api/specify/<table>/<id>/`.
  - `parse_uri` / `extract_id_from_uri` take such a URI apart, using the
    regular expression `^\/api\/specify\/(\w+)\/($|(\d+))`.
- **Records and queries** (`store.dfy`, module `Store`).
  - A record is a flat map from field names to JSON scalars.
  - A query is the pair of filters that `get_defitem` and `get_taxon`
    write into their query strings.
- **The server** (`remote.dfy`, module `Remote`).
  - The database is a map from `(table, id)` to records, with the id the
    next created record gets.
  - Each stored record is stamped with its `id` and `resource_uri`.
  - The server answers a query with the matching records in ascending id
    order; `FirstAnswer` is what `[0]` takes from that answer.
  - `Evolves` says what the import may do to the database over time:
    - add records;
    - change only `author`, `isaccepted` and `acceptedtaxon` of a stored
      record;
    - never make a synonym accepted again.
  - `Touches(before, after, keys)` is the frame: every stored record
    outside `keys` is exactly as it was, and new records have ids `before`
    had not handed out.
- **The API session** (`session.dfy`, class `Sessions.Session`).
  - It holds the logged-in `specifyuser`, the `_hierarchy` scope table, the
    collections offered before login, and the server.
  - Every data operation fails with `NotLoggedIn` while nobody is logged in,
    as the `ensure_login` decorator does.
  - Each HTTP status the server could answer is a parameter of the
    operation.
- **The taxon helpers** (`taxon_helpers.dfy`, module `TaxonHelpers`): the
  rank names, `get_defitem`, `get_taxon`, `update_author`, and the creation
  of an accepted taxon.
- **The tree information** (`tree.dfy`, module `Tree`): the globals
  `MAMMALIA`, `TREE_DEF_ID` and `DEF_ITEMS` as the value `TreeData`, and
  what `tree_info_fetched` checks of them.
- **What the script promises** (`import_spec.dfy`, module `ImportSpec`):
  the CSV rows and `str.strip`, the lookups each row sends, the records each
  step creates or rewrites, and the lemmas that connect the steps.
- **The import script** (`importer.dfy`, module `Importer`).
  - The class `TreeInfo` holds the three globals; `fetch_tree_info` sets
    them.
  - It models `deserialize_csv`, `proccess_row`, `get_accepted`,
    `get_or_create_taxon`, `synonymize_taxon` and `main`. `main` creates
    the record set `Imported Species (Api Demo)`, holding the Species of
    every row.

The central property is about each CSV row. `proccess_row` looks up each of
its four taxa (Order, Family, Genus, Species) by the row's name at the
rank's definition item, under a parent named as the row says one rank up.
The taxon it uses at a rank is the first match of that lookup at the time
of the lookup; when nothing matched, it is a taxon created then, under a new
id, whose `parent` links to the taxon used one rank up (Mammalia for the
Order). Every taxon used is still matched by its lookup at the end of the
import, because every later change keeps the fields a lookup reads. A row
rewrites no stored record except a taxon its Species lookup matches or, for
a synonym row, the accepted species; every record it adds is matched by one
of its lookups.

`get_or_create_taxon` is idempotent: a second call with the same row, rank
and parent finds the taxon the first call answered and changes nothing
(`ImportSpec.GetOrCreateIdempotent`, under the hypotheses listed below).

`RunImport` is the whole script. Its contract states:

- the login errors;
- the collection that is used;
- every row placed as above;
- the record set, with one item per row, in order;
- which records were rewritten and which were added.

Python exceptions become `Err` values of `Outcomes.Result`, one error kind
per `raise`.

## Model

| member | source | states |
|---|---|---|
| Uri.WordRun | session.py:37 | `\w+` reads the longest word prefix: every character before the stop is a word character, and the one at the stop is not |
| Uri.DigitRun | session.py:37 | `\d+` reads the longest digit prefix, and the character at the stop is not a digit |
| Uri.WordRunOf | session.py:37 | `\w+` over a word followed by a non-word character stops exactly at the end of the word |
| Uri.DigitRunOf | session.py:37 | `\d+` over digits followed by a non-digit stops exactly at the end of the digits |
| Uri.NatToString | session.py:59 | the decimal text of an id is a non-empty run of digits |
| Uri.DigitsRoundTrip | session.py:53 | `int(str(n)) == n` for every natural `n` |
| Uri.LowerKeepsWord | session.py:59 | lower-casing a word keeps it a word |
| Uri.LowerIdempotent | session.py:59 | lower-casing twice is lower-casing once |
| Uri.LowerOfLowercase | session.py:59 | text without capitals is its own lower case |
| Uri.ParseUriSound | session.py:37-46 | an accepted URI is the API prefix, a non-empty word, a slash, and then either the end of the text (or one final newline) or a maximal run of digits, which is the captured id |
| Uri.ParseUriAfterTable | session.py:37-46 | after the prefix, a word and a slash, the rest of the text alone decides the parse: end/newline gives no id, a digit gives the digit run, anything else is refused |
| Uri.ParseUriAcceptsCollection | session.py:37-46 | `/api/specify/<t>/` is accepted with table `t` and no id |
| Uri.ParseUriAcceptsId | session.py:37-46 | `/api/specify/<t>/<digits>` followed by a non-digit is accepted with table `t` and those digits |
| Uri.ParseUriRejectsAfterSlash | session.py:37-46 | the regex refuses a URI whose text after the slash is neither empty, one newline, nor starts with a digit |
| Uri.ParseIgnoresTrailingText | session.py:37-46 | the match is anchored only at the start: text appended to a link does not change the parse |
| Uri.EmptyTableRejected | session.py:37-59 | a link built with an empty table name is refused |
| Uri.ExtractIdFromUri | session.py:49-53 | an extracted id is never negative |
| Uri.ParseConstructedLink | session.py:40-59 | parsing a constructed link gives back the lower-cased table and the decimal text of the id |
| Uri.ExtractConstructedId | session.py:49-59 | round trip: the id extracted from `construct_api_link(t, i)` is `i`, for a word `t` and `i >= 0` |
| Uri.NegativeIdRejected | session.py:37-59 | a link with a negative id carries a minus sign, which the regex refuses, so extracting its id fails |
| Uri.CollectionUriHasNoId | session.py:37-53 | a collection URI parses without an id, and `int(None)` fails on it |
| Store.Merge | session.py:281-282 | `current.update(updated)`: the keys of both, the values of `updated` where given and of `current` elsewhere |
| Store.KnownTableNames | taxon_helpers.py:27-28 | the tables the helpers query are names `\w+` matches |
| Store.Matches | taxon_helpers.py:43-47 | the filters of a lookup: `name`, `treedef` or `definitionitem`, and `parent__name` only when a parent name is given |
| Remote.FilteredEmpty | taxon_helpers.py:27-28 | a filtered answer is empty exactly when no stored record below the bound is kept |
| Remote.FilteredHead | taxon_helpers.py:27-31 | the first record of a non-empty filtered answer is the kept record with the smallest id |
| Remote.FilteredSound | taxon_helpers.py:27-28 | every record of a filtered answer is a stored, kept record |
| Remote.FilteredNarrows | taxon_helpers.py:43-47 | a filter that keeps less answers a subset |
| Remote.SelectEmpty | taxon_helpers.py:29-30 | a query answer is empty exactly when no record below the bound matches |
| Remote.SelectAllEmpty | taxon_helpers.py:48-49 | over the whole database, an empty answer means no record matches |
| Remote.FirstAnswerSpec | taxon_helpers.py:46-51 | the first answer is nothing exactly when nothing matches; otherwise it is the stored match with the smallest id |
| Remote.MatchFound | taxon_helpers.py:46-51 | a record that matches is found by the next lookup |
| Remote.SelectHead | taxon_helpers.py:27-31 | the head of a non-empty answer is the first match by id |
| Remote.SelectSound | taxon_helpers.py:27-28 | every record of an answer is stored and matches |
| Remote.ParentFilterNarrows | taxon_helpers.py:43-47 | adding `parent__name` only narrows a taxon query |
| Remote.ParentIgnoredWithoutName | taxon_helpers.py:43-44 | without a parent name the parent plays no part in a taxon query |
| Remote.KeepsField | session.py:281-293 | a kept record keeps every field other than the three the import updates |
| Remote.AddEvolves | session.py:243-251 | storing a record under a fresh id keeps every record already there |
| Remote.UpdateKeeps | session.py:281-293 | overwriting a record with a merge of mutable fields only, never accepting a synonym, keeps it |
| Remote.MatchPreserved | taxon_helpers.py:43-47 | a record a query matches still matches after the database evolves |
| Remote.LinksToMatchPreserved | main.py:206 | a URI that leads to a record a query finds keeps doing so as the database evolves |
| Remote.StampedMatchLink | main.py:161 | the resource URI of a stored matching record leads back to it |
| Remote.NamedTaxonPreserved | main.py:137-138 | a stored taxon keeps its stamped name as the database evolves |
| Remote.StampedLink | session.py:49-59 | a stored record's resource URI extracts to its own id |
| Remote.RestampIsNoop | session.py:283-293 | stamping an already stamped record changes nothing |
| Uri.ParseUri | session.py:37-46 | `parse_uri` on the regular expression, `None` for the failed assertion; what an accepted URI looks like is stated by `ParseUriSound` and the lemmas after it |
| Uri.ConstructApiLink | session.py:56-59 | `construct_api_link`: the API prefix, the lower-cased table, the id in decimal and a slash; `ParseConstructedLink` and `ExtractConstructedId` state that it parses back |
| Remote.MergeOne | taxon_helpers.py:60 | merging a single field is setting it |
| Remote.CreatedField | session.py:243-251 | a created record holds every field it was sent with, except the server's stamp |
| Remote.CreatedTaxon | session.py:243-251 | a new taxon gets the next id, storing it evolves the database, and it is then a stored taxon with its name |
| Remote.LinkTo | main.py:213-214 | a field set to a stored record's URI links to that record's id |
| Remote.ParentNameOfLink | main.py:214 | a taxon created with `parent` set to a stored taxon's URI has that taxon's name as `parent__name` |
| Remote.Select | taxon_helpers.py:27-28 | the server's answer to a lookup: the matching records in ascending id order; `SelectEmpty`, `SelectHead` and `SelectSound` state what it holds |
| Remote.FirstAnswer | taxon_helpers.py:46-51 | `taxons[0]`, or `None` for an empty answer; `FirstAnswerSpec` states it is the stored match with the smallest id |
| Remote.FirstAnswerOf | taxon_helpers.py:46-51 | the first match of a lookup, by id, is its first answer |
| Remote.MatchStable | taxon_helpers.py:43-47 | while no stored `parent` names an id not yet handed out, whether an existing record matches a lookup does not change as the database evolves with new records under new ids |
| Remote.FirstMatchStable | main.py:187-189 | under the same conditions, the first match of a lookup stays its first match |
| Remote.MatchesOneLookup | taxon_helpers.py:43-47 | a taxon matches at most one of two different lookups by name, item and parent name |
| Remote.LinkedMatchAt | main.py:173-175 | a URI built for id `i` that names a match of a lookup means record `i` matches it |
| Remote.EitherOfLast | main.py:163-175 | one or two records added, the last matching the accepted-species lookup and the first, when there are two, the genus lookup: each added record matches one of the two |
| Remote.AddedOfLast | main.py:202-216 | the last record added matches the rank's lookup and any before it match get_accepted's lookups: each added record matches one of them |
| Remote.TouchesAdd | session.py:206-251 | creating a record under a new id rewrites no stored record |
| Remote.TouchesSet | session.py:254-293 | updating a stored record rewrites that record only |
| Sessions.Session.constructor | session.py:76-88 | a new session is logged out, every scope is -1, and the collections are those the server offered (`_init_session`, 313-318) |
| Sessions.Session.GetDomainId | session.py:127-128 | an id exactly for the four scope names, the stored one |
| Sessions.Session.GetCollectionId | session.py:301-305 | an id exactly for an offered collection name, the offered one |
| Sessions.Session.Login | session.py:111-125 | 403 is InvalidCredentials and 400 a bad request, both leaving the user as it was; otherwise the user is logged in, and login succeeds exactly when the collection's chain resolves, the scope table then holding that chain |
| Sessions.Session.UpdateHierarchy | session.py:320-331 | logged out fails; otherwise succeeds exactly when collection → discipline → division → institution resolves, storing the chain's ids; on failure the table is unchanged |
| Sessions.Session.FetchResource | session.py:130-189 | logged out, 403 and non-200 answers are the three errors; success exactly for a stored record, which is the answer |
| Sessions.Session.FetchCollection | session.py:191-203 | logged out, 403 and non-200 answers are errors; otherwise every matching record in ascending id order |
| Sessions.Session.CreateResource | session.py:205-251 | the error statuses as above and success exactly at 201 on a table name; the record is stored under the next id, stamped, and is the answer; a failure changes nothing |
| Sessions.Session.UpdateResource | session.py:253-293 | the fetch's errors, then 400 VersionMissing, 409 VersionMismatch, other non-200 errors; on success the stored record is the merge of the old record and the update, keeping its id and URI, and nothing else changes |
| Sessions.Session.Logout | session.py:295-299 | only a logged-in session can log out; afterwards nobody is logged in |
| TaxonHelpers.RankName | taxon_helpers.py:10-15 | the text of each rank, as the CSV columns and the definition items name it; `RankNamesExact` states the four are exactly the Literal's |
| TaxonHelpers.AcceptedTaxonData | main.py:170-174 | the fields an accepted taxon is created with: the name, the author or null, accepted, no accepted taxon, not a hybrid, the item's `rankid` and URI, and the parent's URI |
| TaxonHelpers.RankNamesExact | taxon_helpers.py:10-15 | the rank names are exactly Order, Family, Genus and Species, one per rank |
| TaxonHelpers.GetDefItem | taxon_helpers.py:23-31 | the first definition item of the tree with that name; none raises; the answer is a served item |
| TaxonHelpers.GetTaxon | taxon_helpers.py:34-51 | the first taxon with that name and definition item, restricted by parent name when one is given; `None` when none matches |
| TaxonHelpers.AuthorUpdated | taxon_helpers.py:54-60 | sending only a new author stores the taxon with that author and every other field as it was |
| TaxonHelpers.UpdateAuthor | taxon_helpers.py:54-60 | an equal author sends nothing and answers the taxon; otherwise the stored taxon gets the author and keeps every other field; a missing `author` field raises |
| TaxonHelpers.AcceptedTaxonFields | main.py:75-76 | a created accepted taxon holds its name, author, `isaccepted` true, no accepted taxon, its definition item and parent |
| TaxonHelpers.AcceptedTaxonCreated | main.py:170-175 | storing an accepted taxon gives the record `AcceptedTaxonStored` describes |
| TaxonHelpers.AcceptedTaxonMatches | main.py:170-175 | a created accepted taxon is what a lookup by its name, item and parent name finds, with or without the parent name |
| TaxonHelpers.CreateAcceptedTaxon | main.py:75-76 | a missing parent fails; otherwise the taxon is stored with the given item, name, parent and author, accepted |
| Tree.TreeData.ValidEvolves | main.py:12-15 | the fetched globals stay valid as the database evolves: Mammalia stays a stored taxon with its name |
| Tree.TreeData.ItemId | main.py:187-189 | for a fetched tree, `DEF_ITEMS[rank]["id"]` is the item's integer id and is not negative |
| ImportSpec.TrimStartShape | main.py:103 | stripping leading white space removes a prefix of white space and no more |
| ImportSpec.TrimEndShape | main.py:103 | stripping trailing white space removes a suffix of white space and no more |
| ImportSpec.StripShape | main.py:103 | `strip()` gives a piece of the text, with only white space on both sides of it, and no white space at its ends |
| ImportSpec.StripIdempotent | main.py:103 | stripping twice is stripping once |
| ImportSpec.StripRow | main.py:101-104 | every value of a row stripped; `StripRowIdempotent` states that a stripped row is a fixpoint |
| ImportSpec.StripRowIdempotent | main.py:101-104 | a deserialized row stripped again is unchanged |
| ImportSpec.StrippedRows | main.py:97-106 | one row per line, in order, each the line with every value stripped |
| ImportSpec.MammaliaFound | main.py:70-71 | a Mammalia found at the Class item is the settled Mammalia, and the store is unchanged |
| ImportSpec.MammaliaCreated | main.py:72-76 | a Mammalia created at the Class item under the first Chordata of the Phylum item is settled: the new store is the old one plus exactly that accepted taxon under the next id, and a lookup of Mammalia under Chordata matches it |
| ImportSpec.ItemsAreAnswers | main.py:78-81 | items fetched rank by rank are, for every rank, the first answer of that rank's lookup |
| ImportSpec.StoredAcceptedAt | main.py:159-161 | a stored taxon a lookup matches, with the given author, is at its own URI |
| ImportSpec.CreatedAcceptedAt | main.py:173-175 | a created accepted species is at its URI for the lookup by its name, item and parent |
| ImportSpec.ResolvedByReuse | main.py:155-161 | a found accepted species, rewritten alone and with nothing added, answered by its own URI with the accepted author, is what get_accepted promises |
| ImportSpec.ResolvedByCreation | main.py:163-175 | when the accepted species was missing, rewriting nothing and creating it (and perhaps its genus) is what get_accepted promises |
| ImportSpec.CreatedForAccepted | main.py:163-175 | every record created for a missing accepted species is that species or its genus under 'Uploaded' |
| ImportSpec.AcceptedGenusKept | main.py:163-171 | a genus created under 'Uploaded' stays matched and accepted while the species is created |
| ImportSpec.AcceptedCreatedOf | main.py:163-175 | finding or creating the genus, then creating the species under it, gives what creating the accepted species promises: the species is the last record, at the URI of its id, with the accepted author; the genus, when created, is the first new record |
| ImportSpec.UploadedGenus | main.py:166-171 | a genus created under 'Uploaded' is matched by its name under 'Uploaded' |
| ImportSpec.AcceptedAtAdded | main.py:173-175 | adding a record keeps an accepted taxon at its URI |
| ImportSpec.SynonymFields | main.py:225-228 | the two fields synonymize_taxon sends: not accepted, and the accepted taxon's URI |
| ImportSpec.SynonymUpdated | main.py:225-229 | sending those two fields stores the taxon with exactly those two fields changed, and the store evolves |
| ImportSpec.SynonymKeepsAcceptedAt | main.py:221-229 | synonymizing a taxon changes no author, so the accepted species stays at its URI with its author |
| ImportSpec.SynonymStored | main.py:221-229 | storing the two fields leaves the taxon synonymized: not accepted, linked to the row's accepted species, or to nothing for an accepted row |
| ImportSpec.SynonymRecord | main.py:229 | the synonymized record keeps its id and holds the two fields sent |
| ImportSpec.TaxonData | main.py:202-215 | the eleven fields a new taxon is created with |
| ImportSpec.TaxonDataFields | main.py:202-216 | a created taxon holds every field it was sent with |
| ImportSpec.TaxonDataFor | main.py:202-215 | those fields for a row at a rank: the row's name, the Species-only author, the accepted taxon, accepted only for the Species of an accepted row, the item's `rankid` and URI, the tree link and the parent's URI |
| ImportSpec.NewTaxonRecord | main.py:202-215 | the record sent for a new taxon; a missing `rankid` or `resource_uri` raises, in the order the fields are read |
| ImportSpec.TaxonStoredFields | main.py:202-215 | the sent record gives the row's name, the Species-only author, the rank's item and `rankid`, the parent and the tree link |
| ImportSpec.StoredTaxonFields | main.py:216 | the stored new taxon has the next id, is a stored named taxon, links to the rank's item, and has the parent's name as `parent__name` |
| ImportSpec.TaxonStored | main.py:202-218 | the created taxon is the one `TaxonCreated` describes: the last record added, with the row's fields, only get_accepted's records added before it and only the accepted species it found rewritten |
| ImportSpec.Flips | main.py:198 | an existing Species held as accepted (`== True`, which 1 also meets) in a synonym row is synonymized |
| ImportSpec.SameAuthor | taxon_helpers.py:58-59 | setting the author a taxon already has changes nothing |
| ImportSpec.AuthorKeepsSynonym | main.py:199-200 | a new author leaves a record's id, `isaccepted` and `acceptedtaxon` as they were |
| ImportSpec.SynonymAuthored | main.py:198-200 | a synonym given the row's author remains the row's synonym, linked to what get_accepted answered |
| ImportSpec.AnsweredName | main.py:188-189 | a taxon matched by the lookup carries the row's name at that rank |
| ImportSpec.FoundAnswered | main.py:195-200 | a found taxon, once reconciled, is still matched by its lookup |
| ImportSpec.CreatedAnswered | main.py:202-218 | a created taxon is matched by the lookup that missed it, when its parent is a stored taxon |
| ImportSpec.GetOrCreateIdempotent | main.py:178-218 | after a call, the lookup's first answer is the taxon it answered; a second call with the same row, rank and parent answers the same taxon and leaves the store unchanged |
| ImportSpec.FoundStays | main.py:187-189 | a first answer whose record is kept, with nothing added below its id, stays the first answer |
| ImportSpec.CreatedStays | main.py:202-218 | a lookup that matched nothing, and of the added records matches only the last, has that record as its first answer |
| ImportSpec.OnlyNewFound | main.py:202-218 | a lookup that matches no kept record and only the last added one has that record as its first answer |
| ImportSpec.OnlyNewFirst | main.py:202-218 | that last added record is then the lookup's first match |
| ImportSpec.StillNoMatch | main.py:187-189 | a lookup that matched nothing still matches none of the records that were there |
| ImportSpec.FoundFirstAgain | main.py:187-200 | a taxon the first call found is the lookup's first answer afterwards; a found Species then has the row's author and does not flip |
| ImportSpec.FoundSpeciesSettled | main.py:195-200 | a found Species, once reconciled, is stored at its id, does not flip, has the row's author, and nothing was added under an old id |
| ImportSpec.CreatedFirstAgain | main.py:202-218 | a taxon the first call created is the lookup's first answer afterwards |
| ImportSpec.CreatedOnlyMatch | main.py:202-218 | of the records a creating call added, only the new taxon matches the lookup that missed |
| ImportSpec.CreatedSettles | main.py:192-207 | a created Species does not flip and has the row's author |
| ImportSpec.RepeatReconciled | main.py:195-200 | a Species that does not flip and already has the row's author is reconciled without any change |
| ImportSpec.PlacedByEvolves | main.py:136-139 | taxa matched by their lookups are still matched as the database evolves |
| ImportSpec.RowsPlacedEvolves | main.py:43 | placed rows stay placed as the database evolves |
| ImportSpec.RowMayEvolves | main.py:136-138 | a record a row may rewrite or add stays one it may as the database evolves |
| ImportSpec.FirstAnswerKey | taxon_helpers.py:46-51 | the key of a lookup's first answer is that of a taxon the lookup matches |
| ImportSpec.SettleKeyMayTouch | main.py:195-200 | a stored taxon get_or_create_taxon may rewrite is one its row may touch |
| ImportSpec.SettleKeysMayTouch | main.py:195-200 | every stored taxon get_or_create_taxon may rewrite is one its row may touch, now and later |
| ImportSpec.SettledRank | main.py:187-218 | the taxon get_or_create_taxon answers was the first match of its lookup, or, when nothing matched, was created under a new id with `parent` linking to the parent's id; the ids it handed out are that taxon and what get_accepted created |
| ImportSpec.CreatedRank | main.py:202-216 | a created taxon has a new id, links to its parent's id, and is the last of the records the call added |
| ImportSpec.CreatedLastAdded | main.py:202-216 | the records the call added match the rank's lookup or, for a synonym Species, get_accepted's lookups |
| ImportSpec.CreatedParent | main.py:214 | a created taxon is the last record added and its `parent` links to the parent's id |
| ImportSpec.RecordSetTables | main.py:54-61 | both record set tables are lower-case table names |
| ImportSpec.RecordSetData | main.py:46-53 | the record set main creates: of taxa, named `Imported Species (Api Demo)`, in the collection, owned by the user |
| ImportSpec.RecordSetItemData | main.py:57-60 | an item: the taxon id and the record set's URI |
| ImportSpec.ItemSavedNext | main.py:56-61 | storing the next item keeps the items stored before it |
| ImportSpec.RecordSetKept | main.py:54-61 | the record set stays stored, as created, while the items are added |
| ImportSpec.RowsKeepAdded | main.py:54-61 | creating the record set and its items rewrites nothing a row left alone |
| ImportSpec.CollectionToUse | main.py:33 | the id of KUFishvoucher, or -1, an id no record has, when the server offers no such collection |
| Importer.DeserializeCsv | main.py:97-106 | the loop yields exactly the stripped rows, in order, each a fixpoint of stripping |
| Importer.CreateMammalia | main.py:73-76 | Mammalia is created at the Class item under the first Chordata of the Phylum item: the store is the old one plus exactly that accepted taxon, and no stored record is rewritten |
| Importer.TreeInfo.constructor | main.py:17-25 | nothing fetched: Mammalia and the tree id are `None`, every rank's item `None` |
| Importer.TreeInfo.Fetch | main.py:66-82 | the tree id is the discipline's `taxontreedef`, and a bad link fails with nothing changed; on success every global is set, each item is its lookup's first answer, Mammalia is the first match at the Class item with the store unchanged or was created as the one record added, and no stored record is rewritten |
| Importer.TreeInfo.SettleMammalia | main.py:69-76 | Mammalia is the first match at the Class item with the store unchanged, or, when there is none, created under the first Chordata as the one record added |
| Importer.TreeInfo.FetchItems | main.py:78-81 | each rank's item is the first definition item of that name; the store is not changed |
| Importer.GetAccepted | main.py:143-175 | the tree info must be fetched; an accepted row answers null and changes nothing; otherwise only the accepted species the lookup found may be rewritten; when found, nothing is added and the answer is its URI, with the accepted author; when missing, one or two records are added, the species last at the URI of its id and its genus, when created, first, under 'Uploaded' |
| Importer.ResolveAccepted | main.py:155-175 | the accepted species of a synonym row, found or created, as `AcceptedResolved` says |
| Importer.ReuseAccepted | main.py:159-161 | the found accepted species gets the accepted author; it is the only record that may be rewritten, nothing is added, and the answer is its own `resource_uri` |
| Importer.CreateAccepted | main.py:163-175 | no stored record is rewritten; the species is created last, at the URI of its id, with the accepted author; one record is added when its genus exists, two when the genus is created first under 'Uploaded' |
| Importer.CreateAcceptedSpecies | main.py:173-175 | the species is created under the accepted genus with the accepted author as the one record added, accepted, at the URI of the old next id |
| Importer.AcceptedGenus | main.py:163-171 | a found accepted genus is the first match and nothing changes; a missing one is created under 'Uploaded' as the one record added, accepted |
| Importer.CreateUploadedGenus | main.py:166-171 | the genus is created at the Genus item with `parent` the URI of the first 'Uploaded' family, as the one record added, and nothing is rewritten |
| Importer.SynonymizeTaxon | main.py:221-229 | only the taxon and the accepted species get_accepted found may be rewritten; the stored taxon is no longer accepted and its accepted taxon is the row's accepted species, with get_accepted's records, or null for an accepted row |
| Importer.AcceptedField | main.py:206 | null with nothing changed above Species or for an accepted row; otherwise what get_accepted answers and changes |
| Importer.CreateTaxon | main.py:202-218 | a missing taxon is created as the last record with the row's fields; above Species or for an accepted row it is the one record added; at a synonym Species only get_accepted's records are added before it and only the accepted species it found is rewritten |
| Importer.SendTaxon | main.py:208-216 | the taxon sent after get_accepted is stored as the last record, with the row's fields, and the whole step from before get_accepted is as `TaxonCreated` says |
| Importer.ReconcileSpecies | main.py:195-200 | at Species a found taxon gets the row's author; when it does not flip the store is the old one with only that author changed; when it flips it is synonymized first, only it and the accepted species may be rewritten, and get_accepted's records are added |
| Importer.SynonymizeSpecies | main.py:198-200 | a flipping Species is synonymized, then given the row's author; only it and the accepted species may be rewritten |
| Importer.GetOrCreateTaxon | main.py:178-218 | the tree info must be fetched and the parent must have a text name; above Species nothing is rewritten, at Species only the taxon found and the accepted species; the answer is the lookup's first answer, unchanged with the store unchanged above Species and reconciled at Species, or a taxon created with the row's fields; it is then matched by its lookup |
| Importer.SettleFound | main.py:195-200 | above Species the found taxon is answered and nothing changes; at Species it is reconciled; it is still matched by its lookup |
| Importer.ProcessRow | main.py:124-140 | the tree info must be fetched; only taxa the row may touch are rewritten and new records have new ids; on success the taxon used at each rank is its lookup's first match at the time of the lookup, or was created then under a new id with `parent` linking to the taxon used one rank up (Mammalia for the Order); each is still matched by its lookup, every id added is matched by one of the row's lookups, and the answer is the Species id |
| Importer.PlaceRank | main.py:136-138 | one rank of the loop: the taxon used is settled as above and matched by its lookup, the next lookup is under its name, and only records the row may touch are rewritten |
| Importer.ProcessRows | main.py:43 | one Species id per row, in order; no record is rewritten that no row may touch; every row's taxa are settled at their lookups and matched at the end; every id added is matched by a lookup of some row |
| Importer.SaveRecordSetItems | main.py:56-61 | one item per id, in order, each under the next id and in the record set; nothing stored is rewritten |
| Importer.SaveRecordSet | main.py:45-61 | logged out or a user without `resource_uri` fails with nothing changed; otherwise the record set of taxa, in the session's collection and owned by the user, then one item per id; nothing stored is rewritten |
| Importer.ImportRows | main.py:41-61 | the stripped rows are placed as `ProcessRows` says, and then the record set with their Species ids is the only thing added |
| Importer.Connect | main.py:30-39 | 403 and 400 login answers fail with nothing changed; on success the user is logged in to KUFishvoucher's id (-1 when missing), the tree info is fetched, Mammalia is settled, and no stored record is rewritten |
| Importer.RunImport | main.py:28-61 | the login errors; on success every stripped row is placed as `ProcessRow` says, only records some row may touch were rewritten, and the record set holds each row's Species, in order, in the collection used |

## Left out

- HTTP, JSON, the CSRF token, logging, `print`, credentials, the domain and
  reading the CSV file are not modelled. The file's rows arrive as a
  parameter, and each status the server answers is a parameter of the
  session's operations.
- Below the login, the methods of `Importer` and `TaxonHelpers` always pass
  200 and 201 as the server's status. The error statuses are modelled only
  at the session's own operations.
- `send_request` and `InvalidMethod` (session.py:90-109) are the HTTP
  transport and are not modelled.
- `get_collections` (session.py:307-311) is a plain getter that the script
  never calls; the `collections` field is that map.
- Query strings are modelled as `Query` filters: a name, a tree or a
  definition item, and an optional parent name. URL encoding is not
  modelled. The server is assumed to answer in ascending id order and in
  one page, so pagination and `limit` are not modelled.
- Character classes (`\w`, `\d`, `str.lower`, `str.strip`) are ASCII only.
  Unicode word characters, digits, case and white space are not modelled.
- `create_accepted_taxon` is imported by main.py:8 from taxon_helpers.py,
  but taxon_helpers.py does not define it. `TaxonHelpers.CreateAcceptedTaxon`
  gives it the behaviour its call sites rely on: a missing parent fails,
  and otherwise an accepted taxon with the given fields is created.
- Uri.ExtractIdFromUri: its own contract only says an id is non-negative.
  What it extracts is stated by `Uri.ExtractConstructedId` and the
  `ParseUri` lemmas.
- `deserialize_csv` also strips the column names. `ImportSpec.Row` has
  fixed fields, so only the values are stripped. A file with unexpected
  headers is not modelled.
- The server's serialization is simplified. A record is a flat map of
  values. Nested dependent records, `version` increments and the server's
  own validation of foreign keys are not modelled. A stored record differs
  from the sent one only by its `id` and `resource_uri`.
- GetOrCreateTaxon: a parent whose `name` is not text fails with
  `MissingField("name")`. In the source, a JSON null name makes
  `get_taxon` drop the `parent__name` filter, so any taxon of that name at
  the item is found. `proccess_row` only passes Mammalia or a taxon
  `get_or_create_taxon` answered, and both have a text name, so the script
  never reaches this case.
- GetOrCreateIdempotent: it holds under four hypotheses. The parent is a
  stored taxon. No stored `parent` link names an id the server has not
  handed out (`Remote.ParentsIssued`; the server's foreign-key checks are
  not modelled, so `ValidDb` does not promise it). The Genus and Species
  definition items differ. A synonym row does not name its own Species,
  under its own Genus, as its accepted species.
- GetOrCreateIdempotent: for a synonym row that names its own Species as
  its accepted species, the first call creates the accepted species before
  the synonym. A second call then finds that accepted species first and
  synonymizes it, so the source is not idempotent there either.
- ProcessRow: that re-processing a whole row changes nothing is not
  stated. Idempotence is proved for one `get_or_create_taxon` call.
- ProcessRow: a record the row adds is characterized by the lookup that
  matches its id (`ImportSpec.RowAdded`), not field by field. The fields of
  the taxa created at each rank are stated by `GetOrCreateTaxon`.
- ProcessRow: when a row fails part-way, the records it added before the
  failure are only known to have new ids (`ImportSpec.RowKeeps`). Which
  lookups match them is stated only for a row that succeeds.
- The globals are fields of `Importer.TreeInfo`, set by `Fetch`. The
  operations after `fetch_tree_info` take them as the value
  `Tree.TreeData`, because nothing modifies them once fetched
  (main.py:12-15).
- The accessors `Tree.TreeData.Item`, `ItemId`, `TreeDefId` and
  `MammaliaName` answer defaults while the tree is not fetched: the empty
  record, -1 and the empty text. Every operation that reads them first
  checks what `tree_info_fetched` checks, as the source's decorator does,
  so no modelled path reads a default.
- A missing `KUFishvoucher` collection makes `get_collection_id` answer
  `None`; the model logs in with the id -1, which no record has.
- `tree_info_fetched` raises when a global is unset. The model returns
  `TreeInfoMissing` at the same point, before any request.
