# Qdrant point retrieval: a Dafny model of the data-shaping core

The service answers lookups against a document store with two collections.
Clinical notes are `CUBEC_NOTE`; package inserts are `PACKAGE_INSERT`. This
project models what `src/app.py` does with the data between the store and the
`{success, data, count}` answer. It does not model how the data travels.

- **Filter builder** (`filters.dfy`, module `Filters`): a list of `{field, value, type}`
  dicts becomes the store's AND-filter. There is one condition per item with a truthy
  `field` and a non-None `value`, in input order. `type == "text"` gives a text match;
  every other type (default `"keyword"`) gives an exact match. When no item qualifies,
  the builder fails with "No valid filter conditions provided".
- **Record normalisation** (`records.dfy`, module `Records`): `get_points_from_ids` and
  `search_points_by_filters` turn each stored record into `{id, payload, vector?}`. A
  missing payload becomes `{}`. A vector is kept only when vectors were requested and
  the stored one is non-empty. An empty id list is refused before the store is asked.
- **Clinical-note transform** (`notes.dfy`, module `CubecNotes`): `transform_cubec_note_response`
  flattens `metadata`.
  - It builds `title` and `disease` from metadata `main_category` and `disease_name`,
    and `context` from the payload's `page_content`, each defaulting to `""`.
  - It copies every other metadata key over them.
  - It rewrites a `YYMMDD` date as `publicationDate = "20YY-MM-DD"`.
  - It raises where Python would. Metadata that is not a dict fails at `.get`. A truthy
    date that is a number or `True` fails at `len`. A six-element list or dict fails at
    `"20" + date_str[:2]`.
- **Package-insert URL enrichment** (`package_inserts.dfy`, module `PackageInserts`): the
  drug code is `package_insert_no.rsplit('_', 1)[0]`. Each distinct truthy
  `package_insert_no` is looked up once, and the truthy answers form a request-scoped
  cache. `payload["url"]` is then written, in place, into exactly the points whose number
  hit the cache.
- **Endpoints** (`api.dfy`, module `Api`): `POST /api`, `/api/cubec-note/chapter`,
  `/api/cubec-note/page` and `/api/package-insert/chapter`. Each chains the pieces above
  and returns the envelope, whose `count` is the length of `data`.

Python values are modelled as `Json.Value`. A Python `dict` with string keys is
`Json.Dict`, an ordered list of entries, because Python dicts keep insertion order
and that order is what the service serialises. `Json.Get` is `d.get(k)`. `Json.Set` is
`d[k] = v`: an existing key keeps its place and a new key is appended. Python truthiness
is `Json.Truthy`. A Python dict never holds a key twice (`Json.DistinctKeys`). The
field-level guarantees of the transform are stated for metadata of that kind.

Two collaborators become function parameters:
- the document store: `Records.Retrieve` and `Records.Scroll`, where `None` stands for a
  client that raised;
- the code-to-url service: `PackageInserts.UrlService`, which maps a drug code to the
  `url` field of the service's answer, with `Null` for a failed call, a non-200 status
  or a missing field.

`PackageInserts.FetchDrugUrl` is `fetch_drug_url`. A string number is looked up by its
drug code. Any other value makes `rsplit` raise, which the function swallows into `None`,
and no request is sent.

Facts about the code that the model keeps:
- An item whose `value` is the empty string still yields a filter condition.
- A lookup yields one `url` value, the `url` field of the service's answer.
- A `package_insert_no` is looked up as one code.
- The date rewrite checks the length only, not that the characters are digits.
- `POST /api` returns clinical notes normalised but not transformed.
- Lookups are deduplicated by `package_insert_no`, not by drug code, so two numbers with
  the same drug code are looked up twice.

## Model

| member | source | states |
|---|---|---|
| Json.Set | src/app.py:143-145 | after `d[k] = v`, `k` maps to `v`; every other key maps to what it did; an existing key keeps its position and a new key is appended at the end |
| Filters.BuildFilter | src/app.py:183-208 | succeeds exactly when some item has a truthy field and a non-None value; the filter's conditions are then `Conditions(items)` and non-empty; otherwise it fails with NoValidFilterConditions (the empty list included) |
| Filters.Keep | src/app.py:189 | the filter keeps no more elements than it is given, keeps only elements that satisfy the test, and keeps every element that does |
| Filters.ConditionsAppend | src/app.py:184-205 | each item is judged on its own, in order: the conditions of `a + b` are those of `a` followed by those of `b` |
| Filters.ConditionsEmptyIff | src/app.py:207-208 | there are no conditions if and only if no item qualifies |
| Filters.ConditionsShape | src/app.py:184-205 | the conditions of `Conditions` are exactly one per qualifying item, in input order: the j-th condition is the condition of the j-th qualifying item, so there are as many conditions as qualifying items, no more than items, and each one is the condition of some qualifying item |
| Filters.EndpointItemQualifies | src/app.py:260-302 | a `{field, value, type}` item as the endpoints build it qualifies for every string value, the empty string included; it gives a text match when the type is "text" and an exact match otherwise |
| Records.Normalise | src/app.py:54-59 | the point keeps the record's id; its payload is the stored payload, or `{}` when there is none; it has a vector exactly when vectors were requested and the stored vector is non-empty, and then it is the stored vector |
| Records.NormaliseRecords | src/app.py:52-60 | one point per stored record, in the store's order, each normalised as above |
| Records.GetPointsFromIds | src/app.py:42-62 | an empty id list fails with EmptyPointIds regardless of the store; otherwise a failing store gives StoreUnavailable and a successful one gives its records normalised |
| Records.SearchPointsByFilters | src/app.py:183-231 | fails with NoValidFilterConditions when no item qualifies, regardless of the store; otherwise the store is scanned with `Filter(Conditions(items))`, and its failure gives StoreUnavailable while its records come back normalised |
| CubecNotes.RewriteDate | src/app.py:151-158 | a six-character token becomes "20YY-MM-DD" (ten characters, "20" prefix, dashes at 4 and 7), with the year, month and day taken from characters 0-1, 2-3 and 4-5; any other length comes back unchanged |
| CubecNotes.PublicationDate | src/app.py:147-158 | a missing or falsy date gives no publicationDate; a truthy date raises MalformedDate exactly when it is a number, `True`, or a six-element list or dict; any date that does not raise becomes the publicationDate, unchanged unless it is a string |
| CubecNotes.NoteMetadata | src/app.py:132-133 | missing metadata reads as `{}` and a dict is read as it is; metadata present but not a dict, None included, raises MetadataNotADict |
| CubecNotes.RewriteDateRoundTrip | src/app.py:148-155 | a six-character token becomes a "20YY-MM-DD" date (ten characters, "20" prefix, dashes at 4 and 7) that compacts back to the token |
| CubecNotes.CompactDateRoundTrip | src/app.py:150-155 | every "20YY-MM-DD" date is the rewrite of its compact form, so the rewrite loses nothing |
| CubecNotes.RewriteDateExample | src/app.py:150 | "251012" becomes "2025-10-12" |
| CubecNotes.PublicationDateOfString | src/app.py:147-158 | a non-empty date string yields a publicationDate: a six-character string in the "20YY-MM-DD" shape that compacts back to it, any other length unchanged |
| CubecNotes.PublicationDateAbsent | src/app.py:148 | a missing or falsy date gives no publicationDate |
| CubecNotes.CopyKeysStep | src/app.py:143-145 | copying one more non-renamed metadata key keeps the payload's keys as the leading ones followed by the copied ones: a leading key is overwritten in place, a new key is appended |
| CubecNotes.CopyMetadata | src/app.py:136-145 | the built dict has no key twice; for metadata with distinct keys, every non-renamed metadata key has been copied over the three leading fields, and the keys are title, disease, context and then the new copied keys in metadata order |
| CubecNotes.BuildNotePayload | src/app.py:132-158 | succeeds exactly when the metadata is absent or a dict and the date can be converted, and otherwise raises that payload's error; on success (metadata with distinct keys) the keys are title, disease, context, the new metadata keys in order, then publicationDate; the values are: publicationDate from the date, copied metadata keys verbatim, then main_category, disease_name and page_content with "" as the default |
| CubecNotes.TransformCubecNoteResponse | src/app.py:128-171 | succeeds exactly when every payload transforms, and otherwise fails with the error of the first payload that does not; on success there is one output per input in order, with the same id, the vector exactly when the input has one, and the transformed payload |
| PackageInserts.DrugCode | src/app.py:105-110 | with no underscore the number is its own drug code; otherwise the code is the prefix before the last underscore, and no underscore follows that one |
| PackageInserts.DrugCodeOfJoined | src/app.py:106-110 | splitting off the last segment inverts joining one on: `DrugCode(code + "_" + segment) == code` for any segment without an underscore |
| PackageInserts.DrugCodeExample | src/app.py:105-110 | "6250014F1036_2_13" has drug code "6250014F1036_2" |
| PackageInserts.FetchDrugUrl | src/app.py:102-126 | a string number is looked up under its drug code, and the answer is the service's `url` for it; any other value raises in `rsplit`, which is swallowed: the result is None and no lookup is made |
| PackageInserts.UrlCache | src/app.py:323-333 | a number is cached if and only if it is one of the looked-up numbers and its lookup answered truthily; the cache depends only on the set of numbers |
| PackageInserts.UrlCacheIsolation | src/app.py:327-333 | a lookup failing for one number does not change another number's cache entry |
| PackageInserts.CollectCodes | src/app.py:313-319 | one entry per point, in order: the point's package_insert_no, or None when the payload is empty or lacks it |
| PackageInserts.UniqueCodes | src/app.py:321-322 | fails exactly when a truthy number is a list or a dict (unhashable); otherwise it lists each truthy number exactly once |
| PackageInserts.BuildUrlCache | src/app.py:325-333 | `fetch_drug_url` is called exactly once per listed number, in list order, as the returned record of calls shows, and the service is called only for the string ones; the cache then holds exactly the listed numbers whose answer is truthy, each mapped to its answer |
| PackageInserts.WithUrl | src/app.py:336-338 | the id and the vector are kept; a truthy, cached number sets `payload["url"]` to the cached answer; any other point is left unchanged |
| PackageInserts.WithUrlEffect | src/app.py:335-338 | `payload["url"]` becomes the cached answer exactly when the point's number is truthy and cached; no other payload key, the id and the vector do not change, and a point that misses is unchanged |
| PackageInserts.ApplyUrls | src/app.py:336-338 | each array element, changed in place, becomes its write-back result for its own collected number |
| PackageInserts.EnrichedUrl | src/app.py:311-340 | after enrichment a point's url is its lookup answer if and only if its number is truthy and the answer is truthy; every other point is unchanged |
| PackageInserts.Enrich | src/app.py:311-338 | fails, leaving the points unchanged, exactly when a truthy number is unhashable; otherwise it returns the numbers `fetch_drug_url` was called with, which are each distinct truthy number exactly once (only the string ones reach the service), and leaves the points as `Enriched` |
| Api.RespondWithNotes | src/app.py:272-275 | the envelope of the transformed notes: success, count equal to the length of data and to the number of points, one transformed point per point; otherwise the error of the first payload that does not transform |
| Api.RespondWithPackageInserts | src/app.py:311-340 | the envelope of the enriched points, whose count is the length of data; an unhashable number gives UnhashableCode |
| Api.TwoItemConditions | src/app.py:299-302 | the two items of a chapter endpoint give exactly their two conditions, in order |
| Api.GetCubecNoteChapter | src/app.py:257-275 | scans with text matches on main_category and disease_name; a failing store gives StoreUnavailable; otherwise the answer is the transformed notes as in RespondWithNotes, or the error of the first payload that does not transform |
| Api.GetCubecNotePage | src/app.py:277-294 | scans with a text match on disease_name; a failing store gives StoreUnavailable; otherwise the answer is the transformed notes, or the error of the first payload that does not transform |
| Api.GetPackageInsertChapter | src/app.py:296-340 | scans with an exact package_insert_no and a text section_title; a failing store gives StoreUnavailable; otherwise the answer is the enriched points (nothing is looked up when nothing was found) |
| Api.GetPoints | src/app.py:342-383 | an empty id list gives EmptyPointIds; a failing store gives StoreUnavailable; clinical notes come back normalised and untransformed, with count equal to the number of records; package inserts come back enriched |

## Left out

- The document store's client: its construction from environment variables, its network calls, timeouts and retries. `retrieve` and `scroll` are function parameters.
- The 10,000-record limit passed to `scroll`. The model's scan returns whatever the store returns.
- The HTTP request inside `fetch_drug_url`. Building the URL from `DRUG_API_BASE_URL`, the 10-second timeout and JSON decoding are all inside the `UrlService` parameter.
- The `asyncio.gather` fan-out. Lookups run one after another, and the cache depends only on the set of numbers. `fetch_drug_url` catches every `Exception`. Cancellation is outside the model: a cancelled lookup would come back from `gather` as a truthy result and be cached.
- FastAPI routing, pydantic request validation, the CORS middleware, the debug-logging middleware, `OPTIONS /api`, `GET /collections` and the uvicorn start-up: these are framework plumbing.
- `CollectionName.get_actual_name`: an environment lookup. The two collections are opaque tags.
- The mapping of exceptions to HTTP 400/500 responses, and all logging. Errors are `Failures.Error` values.
- The store client's own validation of a condition's key and value types, for example a non-string field name. That check belongs to the client library.
- Python's cross-type equality in `set()`, such as `True == 1 == 1.0`. Values are compared structurally.
- Named (dict-shaped) vectors. A vector is a sequence of reals.
- String point ids. Ids are integers, as in `PointRequest`.
- `src/app_.py`: an older copy of `get_points_from_ids`, identical to the one modelled.
- CubecNotes.TransformCubecNoteResponse: the exact payload is stated only for metadata with distinct keys, which every Python dict has. For other inputs the method still computes, but nothing is promised about the result.
